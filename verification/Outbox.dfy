/** The tables of the reliability layer and the engine that retries, acknowledges and deduplicates. */
module Outbox {
  import opened Prelude

  datatype RowKey = RowKey(peer: PeerId, mid: MsgId)

  /** A history row; its unique index is (key, outgoing). */
  datatype Row = Row(key: RowKey, outgoing: bool, status: Status, deleted: bool, body: Option<Bytes>)

  datatype Item = Item(id: nat, key: RowKey, frame: Bytes, attempts: nat, nextAt: int)

  datatype Tables = Tables(messages: seq<Row>, outbox: seq<Item>, dedup: map<RowKey, int>)

  // ----- tx.go, statement by statement -----

  function FindRow(rows: seq<Row>, k: RowKey, outgoing: bool): (i: nat)
    ensures i <= |rows|
    ensures i < |rows| ==> rows[i].key == k && rows[i].outgoing == outgoing
    ensures forall j :: 0 <= j < i ==> !(rows[j].key == k && rows[j].outgoing == outgoing)
  {
    if rows == [] || (rows[0].key == k && rows[0].outgoing == outgoing) then 0
    else 1 + FindRow(rows[1..], k, outgoing)
  }

  /** A second row under the same index is silently refused. */
  function InsertMessage(t: Tables, row: Row): (Tables, bool) {
    if FindRow(t.messages, row.key, row.outgoing) < |t.messages| then (t, false)
    else (t.(messages := t.messages + [row]), true)
  }

  /** Statuses only rise; a missing row is no error. */
  function MessageStatusUp(t: Tables, k: RowKey, s: Status): Tables {
    var i := FindRow(t.messages, k, true);
    if i < |t.messages| && Rank(t.messages[i].status) < Rank(s)
    then t.(messages := t.messages[i := t.messages[i].(status := s)])
    else t
  }

  function Erase(rows: seq<Row>, k: RowKey): (r: seq<Row>)
    ensures |r| == |rows|
    ensures forall i :: 0 <= i < |rows| ==>
              r[i] == if rows[i].key == k then rows[i].(deleted := true, body := None) else rows[i]
  {
    if rows == [] then []
    else Erase(rows[..|rows| - 1], k)
         + [if rows[|rows| - 1].key == k then rows[|rows| - 1].(deleted := true, body := None) else rows[|rows| - 1]]
  }

  function DeleteMessageBody(t: Tables, k: RowKey): Tables {
    t.(messages := Erase(t.messages, k))
  }

  /** False when the id was seen before; its entry is refreshed then. */
  function DedupInsert(t: Tables, k: RowKey, now: int): (Tables, bool) {
    (t.(dedup := t.dedup[k := now]), k !in t.dedup)
  }

  function Window(d: map<RowKey, int>, p: PeerId): set<RowKey> {
    set k | k in d && k.peer == p
  }

  /**
   What pruning one peer's window leaves: nothing older than cutoff and at most cap entries; a
   recent entry goes only when the window is full, and then only the oldest.
   */
  ghost predicate Pruned(before: map<RowKey, int>, after: map<RowKey, int>, p: PeerId, cutoff: int, cap: nat) {
    && (forall k :: k in after ==> k in before && after[k] == before[k])
    && (forall k :: k in before && k.peer != p ==> k in after)
    && (forall k :: k in Window(after, p) ==> after[k] >= cutoff)
    && |Window(after, p)| <= cap
    && (forall k :: k in before && k !in after && before[k] >= cutoff ==>
          |Window(after, p)| == cap && forall x :: x in Window(after, p) ==> before[k] <= after[x])
  }

  method Oldest(d: map<RowKey, int>, ks: set<RowKey>) returns (k: RowKey)
    requires ks != {} && forall x :: x in ks ==> x in d
    ensures k in ks && forall x :: x in ks ==> d[k] <= d[x]
  {
    k :| k in ks;
    var rest := ks - {k};
    while rest != {}
      invariant k in ks && rest <= ks
      invariant forall x :: x in ks - rest ==> d[k] <= d[x]
      decreases rest
    {
      var x :| x in rest;
      if d[x] < d[k] {
        k := x;
      }
      rest := rest - {x};
    }
  }

  /** By age first, then by capacity, the oldest going first. */
  method DedupPrune(d: map<RowKey, int>, p: PeerId, cutoff: int, cap: nat) returns (after: map<RowKey, int>)
    ensures Pruned(d, after, p, cutoff, cap)
  {
    after := map k | k in d && (k.peer != p || d[k] >= cutoff) :: d[k];
    while |Window(after, p)| > cap
      invariant forall k :: k in after ==> k in d && after[k] == d[k]
      invariant forall k :: k in d && k.peer != p ==> k in after
      invariant forall k :: k in Window(after, p) ==> after[k] >= cutoff
      invariant forall k :: k in d && k !in after && d[k] >= cutoff ==>
                  |Window(after, p)| >= cap && forall x :: x in Window(after, p) ==> d[k] <= after[x]
      decreases |Window(after, p)|
    {
      var k := Oldest(after, Window(after, p));
      assert Window(after - {k}, p) == Window(after, p) - {k};
      after := after - {k};
    }
  }

  function FindItem(q: seq<Item>, k: RowKey): (i: nat)
    ensures i <= |q|
    ensures i < |q| ==> q[i].key == k
    ensures forall j :: 0 <= j < i ==> q[j].key != k
  {
    if q == [] || q[0].key == k then 0 else 1 + FindItem(q[1..], k)
  }

  /** The ack's envelope leaves the queue; false when it is not there. */
  function OutboxSettle(t: Tables, k: RowKey): (Tables, bool) {
    var i := FindItem(t.outbox, k);
    if i < |t.outbox| then (t.(outbox := RemoveAt(t.outbox, i)), true) else (t, false)
  }

  function SetAttempt(q: seq<Item>, id: nat, attempts: nat, nextAt: int): (r: seq<Item>)
    ensures |r| == |q|
    ensures forall i :: 0 <= i < |q| ==>
              r[i] == if q[i].id == id then q[i].(attempts := attempts, nextAt := nextAt) else q[i]
  {
    if q == [] then []
    else SetAttempt(q[..|q| - 1], id, attempts, nextAt)
         + [if q[|q| - 1].id == id then q[|q| - 1].(attempts := attempts, nextAt := nextAt) else q[|q| - 1]]
  }

  function OutboxAttempt(t: Tables, id: nat, attempts: nat, nextAt: int): Tables {
    t.(outbox := SetAttempt(t.outbox, id, attempts, nextAt))
  }

  // ----- the retry pause -----

  const RETRY_BASE: nat := 5_000
  const RETRY_CAP: nat := 3_600_000

  function Pow2(n: nat): (r: nat)
    ensures r >= 1
  {
    if n == 0 then 1 else 2 * Pow2(n - 1)
  }

  lemma {:induction false} Pow2Grows(a: nat, b: nat)
    requires a <= b
    ensures Pow2(a) <= Pow2(b)
    decreases b - a
  {
    if a < b {
      Pow2Grows(a + 1, b);
    }
  }

  /** Milliseconds to wait after so many attempts: five seconds, doubled each time, at most an hour. */
  function Pause(attempts: int): nat {
    var doubled := RETRY_BASE * Pow2(if attempts > 1 then attempts - 1 else 0);
    if doubled < RETRY_CAP then doubled else RETRY_CAP
  }

  /** More failures never shorten the pause, and it stays between the base and the cap. */
  lemma PauseGrows(a: int, b: int)
    requires a <= b
    ensures RETRY_BASE <= Pause(a) <= Pause(b) <= RETRY_CAP
    ensures b <= 10 ==> Pause(b) < RETRY_CAP
    ensures 11 <= b ==> Pause(b) == RETRY_CAP
  {
    Pow2Grows(if a > 1 then a - 1 else 0, if b > 1 then b - 1 else 0);
    assert Pow2(9) == 512 && Pow2(10) == 1024 by {
      assert Pow2(3) == 8 && Pow2(6) == 8 * Pow2(3) && Pow2(9) == 8 * Pow2(6);
    }
    if b <= 10 {
      Pow2Grows(if b > 1 then b - 1 else 0, 9);
    } else {
      Pow2Grows(10, b - 1);
    }
  }

  method Backoff(attempts: int) returns (d: nat)
    ensures d == Pause(attempts)
  {
    d := RETRY_BASE;
    var i := 1;
    while i < attempts
      invariant 1 <= i && (attempts >= 1 ==> i <= attempts) && (attempts < 1 ==> i == 1)
      invariant d == RETRY_BASE * Pow2(i - 1) < RETRY_CAP
    {
      d := d * 2;
      if d >= RETRY_CAP {
        Pow2Grows(i, attempts - 1);
        return RETRY_CAP;
      }
      i := i + 1;
    }
  }

  // ----- one pass over one peer's due items -----

  /** Took: the frame was handed to the network, sent or not. Skipped: the peer had just failed. */
  datatype Attempt = Went | Failed | Skipped

  /** In a peer's batch the first failure is tried and everything after it is skipped. */
  ghost predicate OneFailure(as': seq<Attempt>) {
    forall i, j :: 0 <= i < j < |as'| && as'[i] != Went ==> as'[j] == Skipped
  }

  /** Sends a peer's items in order; online(i) is the network's answer for item i. */
  method TryPeer(items: seq<Item>, online: nat -> bool) returns (as': seq<Attempt>)
    ensures |as'| == |items| && OneFailure(as')
    ensures forall i :: 0 <= i < |as'| && as'[i] == Went ==> online(i)
    ensures forall i :: 0 <= i < |as'| && as'[i] == Failed ==> !online(i) && forall j :: 0 <= j < i ==> as'[j] == Went
    ensures forall i :: 0 <= i < |as'| && as'[i] == Skipped ==> exists j :: 0 <= j < i && as'[j] == Failed
  {
    as' := [];
    var failed := false;
    for i := 0 to |items|
      invariant |as'| == i && OneFailure(as')
      invariant failed <==> exists j :: 0 <= j < i && as'[j] == Failed
      invariant !failed ==> forall j :: 0 <= j < i ==> as'[j] == Went
      invariant forall x :: 0 <= x < i && as'[x] == Went ==> online(x)
      invariant forall x :: 0 <= x < i && as'[x] == Failed ==> !online(x) && forall j :: 0 <= j < x ==> as'[j] == Went
      invariant forall x :: 0 <= x < i && as'[x] == Skipped ==> exists j :: 0 <= j < x && as'[j] == Failed
    {
      var a: Attempt;
      if failed {
        a := Skipped;
      } else if online(i) {
        a := Went;
      } else {
        a := Failed;
        failed := true;
      }
      ghost var before := as';
      as' := as' + [a];
      assert forall j :: 0 <= j < i ==> as'[j] == before[j];
      assert as'[i] == a;
    }
  }

  // ----- what one pass leaves behind -----

  datatype Tried = Tried(item: Item, a: Attempt)

  function ApplyResult(t: Tables, r: Tried, now: int): Tables {
    var t1 := OutboxAttempt(t, r.item.id, r.item.attempts + 1, now + Pause(r.item.attempts + 1));
    if r.a == Went then MessageStatusUp(t1, r.item.key, Sent) else t1
  }

  function ApplyResults(t: Tables, rs: seq<Tried>, now: int): Tables {
    if rs == [] then t else ApplyResult(ApplyResults(t, rs[..|rs| - 1], now), rs[|rs| - 1], now)
  }

  predicate IdsApart(rs: seq<Tried>, i: int, j: int) {
    0 <= i < j < |rs| ==> rs[i].item.id != rs[j].item.id
  }

  ghost predicate DistinctIds(rs: seq<Tried>) {
    forall i, j :: IdsApart(rs, i, j)
  }

  /**
   A pass never adds, drops or reorders queue rows: row i counts one more attempt and moves past
   its pause if it was tried, and is untouched otherwise.
   */
  lemma {:induction false} PassKeepsRow(t: Tables, rs: seq<Tried>, now: int, i: nat)
    requires DistinctIds(rs) && i < |t.outbox|
    ensures |ApplyResults(t, rs, now).outbox| == |t.outbox| && ApplyResults(t, rs, now).dedup == t.dedup
    ensures var x, y := t.outbox[i], ApplyResults(t, rs, now).outbox[i];
      && y.id == x.id
      && ((forall r :: r in rs ==> r.item.id != x.id) ==> y == x)
      && (forall r :: r in rs && r.item.id == x.id ==>
            y == x.(attempts := r.item.attempts + 1, nextAt := now + Pause(r.item.attempts + 1)))
  {
    if rs != [] {
      var init, last := rs[..|rs| - 1], rs[|rs| - 1];
      forall a, b
        ensures IdsApart(init, a, b)
      {
        assert IdsApart(rs, a, b);
      }
      PassKeepsRow(t, init, now, i);
      var x := t.outbox[i];
      forall r | r in rs && r.item.id == x.id
        ensures if last.item.id == x.id then r == last else r in init
      {
        var j :| 0 <= j < |rs| && rs[j] == r;
        assert IdsApart(rs, j, |rs| - 1);
      }
    }
  }

  // ----- incoming envelopes -----

  /** What the handler of a fresh envelope does in the same transaction. */
  datatype Effect = Fails | Quiet | Inserts(row: Row)

  /** The tables after an envelope k, whether an ack leaves, and whether the handler's effect was committed. */
  function HandleReliable(t: Tables, k: RowKey, e: Effect, now: int): (Tables, bool, bool) {
    var (t1, isNew) := DedupInsert(t, k, now);
    if !isNew then (t1, true, false)
    else
      match e
      case Fails => (t, false, false)
      case Quiet => (t1, true, true)
      case Inserts(row) => (InsertMessage(t1, row).0, true, true)
  }

  function HandleAck(t: Tables, k: RowKey): Tables {
    var (t1, settled) := OutboxSettle(t, k);
    if settled then MessageStatusUp(t1, k, Delivered) else t
  }

  class Manager {
    var db: Tables

    constructor (t: Tables)
      ensures db == t
    {
      db := t;
    }

    /** The handler's effect and the mark that the envelope was seen are committed together. */
    method Reliable(k: RowKey, e: Effect, now: int) returns (acked: bool)
      modifies this
      ensures (db, acked) == (HandleReliable(old(db), k, e, now).0, HandleReliable(old(db), k, e, now).1)
    {
      var tx := db;
      var isNew := k !in tx.dedup;
      tx := tx.(dedup := tx.dedup[k := now]);
      if isNew {
        match e
        case Fails =>
          return false;
        case Quiet =>
        case Inserts(row) =>
          tx := InsertMessage(tx, row).0;
      }
      db := tx;
      acked := true;
    }

    method Ack(k: RowKey) returns (settled: bool)
      modifies this
      ensures db == HandleAck(old(db), k)
      ensures settled <==> FindItem(old(db).outbox, k) < |old(db).outbox|
    {
      var tx := db;
      var i := FindItem(tx.outbox, k);
      settled := i < |tx.outbox|;
      if settled {
        tx := tx.(outbox := RemoveAt(tx.outbox, i));
        db := MessageStatusUp(tx, k, Delivered);
      }
    }

    /** The single transaction after a pass: next attempts are fixed and sent texts marked. */
    method FinishPass(rs: seq<Tried>, now: int)
      modifies this
      ensures db == ApplyResults(old(db), rs, now)
    {
      var tx := db;
      for i := 0 to |rs|
        invariant tx == ApplyResults(db, rs[..i], now) && db == old(db)
      {
        assert rs[..i + 1][..i] == rs[..i];
        var attempts := rs[i].item.attempts + 1;
        var d := Backoff(attempts);
        tx := OutboxAttempt(tx, rs[i].item.id, attempts, now + d);
        if rs[i].a == Went {
          tx := MessageStatusUp(tx, rs[i].item.key, Sent);
        }
      }
      assert rs[..|rs|] == rs;
      db := tx;
    }
  }
}
