/**
 Every run of a node in one group: what the user does, whatever arrives, and the queue being sent.
 A document signed by this node's admin key is one this node issued; its entropy is fresh.
 */
module GroupRuns {
  import opened Prelude
  import opened Group

  datatype Op =
    | Creates(name: string, key: KeyId)
    | Adds(member: Id)
    | Removes(member: Id, key: KeyId)
    | Speaks
    | Welcomed(from: Id, doc: Doc, keys: seq<(Id, Dist)>, key: KeyId)
    | Updated(doc: Doc, key: KeyId)
    | Keyed(from: Id, dist: Dist)
    | Flushes(i: nat)

  /** The store; every item ever queued; the documents issued here; every chain ever seen here. */
  datatype Node = Node(db: Db, sent: set<Item>, issued: set<Doc>, seen: set<KeyId>)

  const START: Node := Node(Db(None, {}, map[], []), {}, {}, {})

  function Call(me: Me, s: Db, op: Op): Result<Db, Error> {
    match op
    case Creates(name, key) => Create(me, s, name, key)
    case Adds(member) => Add(me, s, member)
    case Removes(member, key) => Remove(me, s, member, key)
    case Speaks =>
      (match SendText(me, s)
       case Err(e) => Err(e)
       case Ok((t, _)) => Ok(t))
    case Welcomed(from, doc, ks, key) => OnWelcome(me, s, from, doc, ks, key)
    case Updated(doc, key) => OnUpdate(me, s, doc, key)
    case Keyed(from, dist) => OnKey(s, from, dist)
    case Flushes(i) => Ok(if i < |s.queue| then s.(queue := RemoveAt(s.queue, i)) else s)
  }

  function ChainsIn(op: Op): set<KeyId> {
    match op
    case Creates(_, key) => {key}
    case Removes(_, key) => {key}
    case Updated(_, key) => {key}
    case Welcomed(_, _, ks, key) => {key} + set e | e in ks :: e.1.key
    case Keyed(_, dist) => {dist.key}
    case _ => {}
  }

  function ItemsOf(q: seq<Item>): set<Item> {
    set it | it in q
  }

  function Commit(n: Node, t: Db, chains: set<KeyId>): Node {
    n.(db := t, sent := n.sent + ItemsOf(t.queue), seen := n.seen + chains)
  }

  /** A failed call leaves everything as it was. */
  function Step(me: Me, n: Node, op: Op): Node {
    match Call(me, n.db, op)
    case Err(_) => n
    case Ok(t) =>
      var m := Commit(n, t, ChainsIn(op));
      if (op.Creates? || op.Adds? || op.Removes?) && t.rec.Some? then m.(issued := m.issued + {t.rec.value.doc})
      else m
  }

  predicate Possible(me: Me, n: Node, op: Op) {
    match op
    case Creates(_, key) => n.db.rec.None? && key !in n.seen
    case Removes(_, key) => key !in n.seen
    case Updated(doc, key) => key !in n.seen && (doc.signer == me.admin ==> doc in n.issued)
    case Welcomed(from, doc, ks, key) =>
      && key !in n.seen && from != me.id && (doc.signer == me.admin ==> doc in n.issued)
      && forall e :: e in ks ==> e.1.key != key
    case Keyed(from, _) => from != me.id
    case _ => true
  }

  function Run(me: Me, ops: seq<Op>): Node {
    if ops == [] then START else Step(me, Run(me, ops[..|ops| - 1]), ops[|ops| - 1])
  }

  predicate PossibleRun(me: Me, ops: seq<Op>) {
    ops == []
    || (PossibleRun(me, ops[..|ops| - 1]) && Possible(me, Run(me, ops[..|ops| - 1]), ops[|ops| - 1]))
  }

  // ----- the invariant -----

  /** Record, document and member table agree; every stored chain is a member's. */
  ghost predicate RecOk(me: Me, s: Db) {
    && s.keys.Keys <= s.members
    && match s.rec
       case None => s.members == {}
       case Some(r) =>
         && r.doc.Valid() && r.doc.Genuine() && NoDup(r.doc.members)
         && r.version == r.doc.version && r.name == r.doc.name && r.admin == r.doc.admin
         && s.members == SetOf(r.doc.members)
         && (r.left <==> me.id !in r.doc.members)
  }

  ghost predicate Carries(it: Item, k: KeyId) {
    match it.body
    case Welcome(_, ks) => exists e :: e in ks && e.1.key == k
    case Update(_) => false
    case KeyDist(d) => d.key == k
  }

  ghost predicate WasSent(items: set<Item>, p: Id, k: KeyId) {
    exists it :: it in items && it.to == p && Carries(it, k)
  }

  ghost predicate SeenOk(n: Node) {
    && (forall it :: it in n.db.queue ==> it in n.sent)
    && (forall p :: p in n.db.keys ==> n.db.keys[p].key in n.seen)
    && forall p, k :: WasSent(n.sent, p, k) ==> k in n.seen
  }

  /** The own chain was sent to the other members, and to nobody else. */
  ghost predicate HoldersOk(me: Me, n: Node) {
    me.id in n.db.keys ==>
      forall p :: WasSent(n.sent, p, n.db.keys[me.id].key) <==> p in n.db.members && p != me.id
  }

  /** What this node issued is its own group's, no newer than the record, one document a version. */
  ghost predicate IssuedOk(me: Me, n: Node) {
    && (forall d :: d in n.issued ==>
          && d.admin == me.admin && me.id in d.members
          && n.db.rec.Some? && n.db.rec.value.admin == me.admin && d.version <= n.db.rec.value.version)
    && (forall c, d :: c in n.issued && d in n.issued && c.version == d.version ==> c == d)
    && (n.db.rec.Some? && n.db.rec.value.admin == me.admin ==> n.db.rec.value.doc in n.issued)
  }

  ghost predicate Inv(me: Me, n: Node) {
    RecOk(me, n.db) && SeenOk(n) && HoldersOk(me, n) && IssuedOk(me, n)
  }

  // ----- the parts -----

  lemma PutDocOk(s: Db, doc: Doc, admin: PubKey, left: bool)
    ensures PutDoc(s, doc, admin, left).Ok? <==> NoDup(doc.members)
    ensures PutDoc(s, doc, admin, left).Ok? ==>
              PutDoc(s, doc, admin, left).value
              == s.(rec := Some(Rec(doc.version, doc.name, admin, doc, left)), members := SetOf(doc.members))
  {
    MemberRowsMeaning(doc.members);
  }

  /** The chain stays; what is queued reaches exactly those that become members. */
  lemma ExtendKeeps(me: Me, n: Node, t: Db, added: seq<Item>, chains: set<KeyId>)
    requires SeenOk(n) && HoldersOk(me, n) && t.queue == n.db.queue + added
    requires forall p :: p in t.keys ==> t.keys[p].key in n.seen + chains
    requires forall p, k :: WasSent(ItemsOf(added), p, k) ==> k in n.seen + chains
    requires me.id in t.keys ==> me.id in n.db.keys && t.keys[me.id].key == n.db.keys[me.id].key
    requires me.id in t.keys ==> forall p ::
               (p in t.members && p != me.id
                <==> (p in n.db.members && p != me.id) || WasSent(ItemsOf(added), p, t.keys[me.id].key))
    ensures SeenOk(Commit(n, t, chains)) && HoldersOk(me, Commit(n, t, chains))
  {
    var m := Commit(n, t, chains);
    forall p, k
      ensures WasSent(m.sent, p, k) <==> WasSent(n.sent, p, k) || WasSent(ItemsOf(added), p, k)
    {
      SentUnion(n, t, added, p, k);
    }
  }

  lemma SentUnion(n: Node, t: Db, added: seq<Item>, p: Id, k: KeyId)
    requires t.queue == n.db.queue + added && forall it :: it in n.db.queue ==> it in n.sent
    ensures WasSent(n.sent + ItemsOf(t.queue), p, k) <==> WasSent(n.sent, p, k) || WasSent(ItemsOf(added), p, k)
  {
    assert n.sent + ItemsOf(t.queue) == n.sent + ItemsOf(added);
    if WasSent(n.sent, p, k) {
      var it :| it in n.sent && it.to == p && Carries(it, k);
      assert it in n.sent + ItemsOf(added);
    }
    if WasSent(ItemsOf(added), p, k) {
      var it :| it in ItemsOf(added) && it.to == p && Carries(it, k);
      assert it in n.sent + ItemsOf(added);
    }
  }

  ghost predicate Silent(items: seq<Item>) {
    forall it :: it in items ==> it.body.Update?
  }

  lemma DistSends(items: seq<Item>, ms: seq<Id>, self: Id, dist: Dist, before: seq<Item>)
    requires Silent(before) && items == before + Fanout(ms, self, KeyDist(dist))
    ensures forall p, k :: WasSent(ItemsOf(items), p, k) <==> k == dist.key && p in ms && p != self
  {
    FanoutMeaning(ms, self, KeyDist(dist));
    forall p, k
      ensures WasSent(ItemsOf(items), p, k) <==> k == dist.key && p in ms && p != self
    {
      if k == dist.key && p in ms && p != self {
        assert Item(p, KeyDist(dist)) in ItemsOf(items);
      }
    }
  }

  /** A new chain goes to exactly the members it is made for. */
  lemma RekeyKeeps(me: Me, n: Node, u: Db, updates: seq<Item>, ms: seq<Id>, key: KeyId, chains: set<KeyId>)
    requires SeenOk(n) && key !in n.seen && key in chains
    requires u.queue == n.db.queue + updates && Silent(updates) && u.members == SetOf(ms)
    requires forall p :: p in u.keys ==> u.keys[p].key in n.seen + chains
    ensures SeenOk(Commit(n, Rekey(me, u, ms, key), chains)) && HoldersOk(me, Commit(n, Rekey(me, u, ms, key), chains))
  {
    var t := Rekey(me, u, ms, key);
    var m := Commit(n, t, chains);
    var added := updates + Fanout(ms, me.id, KeyDist(t.keys[me.id]));
    DistSends(added, ms, me.id, t.keys[me.id], updates);
    assert t.queue == n.db.queue + added;
    forall p, k
      ensures WasSent(m.sent, p, k) <==> WasSent(n.sent, p, k) || WasSent(ItemsOf(added), p, k)
    {
      SentUnion(n, t, added, p, k);
    }
  }

  // ----- one operation -----

  lemma CreateKeeps(me: Me, n: Node, name: string, key: KeyId, t: Db)
    requires Inv(me, n) && Possible(me, n, Creates(name, key)) && Create(me, n.db, name, key) == Ok(t)
    ensures RecOk(me, t) && t.rec.value.admin == me.admin && me.id in t.members
    ensures SeenOk(Commit(n, t, {key})) && HoldersOk(me, Commit(n, t, {key}))
  {
    PutDocOk(n.db, Doc(1, name, me.admin, [me.id], me.admin), me.admin, false);
    var m := Commit(n, t, {key});
    assert t.queue == n.db.queue + [];
    forall p, k
      ensures WasSent(m.sent, p, k) <==> WasSent(n.sent, p, k)
    {
      SentUnion(n, t, [], p, k);
    }
  }

  function WelcomeFor(t: Db, member: Id): Item
    requires t.rec.Some?
  {
    Item(member, Welcome(t.rec.value.doc, CollectDists(t.keys, t.rec.value.doc.members, member)))
  }

  /** The newcomer is sent the document with the known chains, the others the document. */
  lemma AddQueues(me: Me, s: Db, member: Id, t: Db) returns (added: seq<Item>)
    requires RecOk(me, s) && Add(me, s, member) == Ok(t) && member !in s.members
    ensures t.queue == s.queue + added && t.keys == s.keys && t.members == s.members + {member}
    ensures t.rec.value.version == s.rec.value.version + 1 && t.rec.value.admin == s.rec.value.admin == me.admin
    ensures RecOk(me, t) && !t.rec.value.left
    ensures forall it :: it in added <==>
      it == WelcomeFor(t, member) || (it.body == Update(t.rec.value.doc) && it.to in s.members && it.to != me.id)
  {
    hide MemberRows, Fanout, CollectDists, PutDoc, NoDup;
    var prior := s.rec.value.doc;
    var next := Doc((prior.version + 1) % U64, prior.name, prior.admin, prior.members + [member], me.admin);
    PutDocOk(s, next, s.rec.value.admin, s.rec.value.left);
    FanoutMeaning(prior.members, me.id, Update(next));
    added := [WelcomeFor(t, member)] + Fanout(prior.members, me.id, Update(next));
    assert t.queue == s.queue + added;
    assert SetOf(next.members) == SetOf(prior.members) + {member};
  }

  lemma AddKeeps(me: Me, n: Node, member: Id, t: Db)
    requires Inv(me, n) && Add(me, n.db, member) == Ok(t)
    ensures RecOk(me, t) && t.rec.value.admin == me.admin && me.id in t.members
    ensures SeenOk(Commit(n, t, {})) && HoldersOk(me, Commit(n, t, {}))
    ensures t.rec == n.db.rec || t.rec.value.version > n.db.rec.value.version
  {
    if member in n.db.members {
      assert t.queue == n.db.queue + [];
      ExtendKeeps(me, n, t, [], {});
    } else {
      var added := AddQueues(me, n.db, member, t);
      WelcomeCarries(me, t, member, added);
      hide Add, Carries, CollectDists, WasSent;
      ExtendKeeps(me, n, t, added, {});
    }
  }

  lemma WelcomeCarries(me: Me, t: Db, member: Id, added: seq<Item>)
    requires t.rec.Some? && member !in t.keys && t.keys.Keys <= SetOf(t.rec.value.doc.members)
    requires forall it :: it in added ==> it == WelcomeFor(t, member) || it.body.Update?
    requires WelcomeFor(t, member) in added
    ensures forall p, k :: WasSent(ItemsOf(added), p, k) ==>
              p == member && exists q :: q in t.keys && t.keys[q].key == k
    ensures me.id in t.keys ==> WasSent(ItemsOf(added), member, t.keys[me.id].key)
  {
    var doc, welcome := t.rec.value.doc, WelcomeFor(t, member);
    CollectDistsMeaning(t.keys, doc.members, member);
    hide CollectDists;
    assert welcome in ItemsOf(added);
    if me.id in t.keys {
      assert (me.id, t.keys[me.id]) in CollectDists(t.keys, doc.members, member);
      assert Carries(welcome, t.keys[me.id].key);
    }
  }

  lemma RemoveKeeps(me: Me, n: Node, member: Id, key: KeyId, t: Db)
    requires Inv(me, n) && key !in n.seen && Remove(me, n.db, member, key) == Ok(t)
    ensures RecOk(me, t) && t.rec.value.admin == n.db.rec.value.admin == me.admin && me.id in t.members
    ensures t.rec.value.version == n.db.rec.value.version + 1
    ensures SeenOk(Commit(n, t, {key})) && HoldersOk(me, Commit(n, t, {key}))
    ensures member !in t.members && t.members == n.db.members - {member}
    ensures forall p :: p in n.db.members && p != me.id ==> Item(p, Update(t.rec.value.doc)) in t.queue
  {
    hide MemberRows, Fanout, Except, PutDoc, NoDup, WasSent, HoldersOk;
    var s, prior := n.db, n.db.rec.value.doc;
    var next := Doc((prior.version + 1) % U64, prior.name, prior.admin, Except(prior.members, [member]), me.admin);
    ExceptMeaning(prior.members, [member]);
    PutDocOk(s, next, s.rec.value.admin, s.rec.value.left);
    FanoutMeaning(prior.members, me.id, Update(next));
    assert SetOf(next.members) == SetOf(prior.members) - {member};
    var updates := Fanout(prior.members, me.id, Update(next));
    var u := PutDoc(s, next, s.rec.value.admin, s.rec.value.left).value
      .(keys := s.keys - {member}, queue := s.queue + updates);
    RekeyKeeps(me, n, u, updates, next.members, key, {key});
  }

  lemma ApplyKeeps(me: Me, n: Node, next: Doc, key: KeyId, t: Db, chains: set<KeyId>)
    requires Inv(me, n) && key !in n.seen && key in chains && n.db.rec.Some? && next.Valid()
    requires ApplyMembership(me, n.db, n.db.rec.value, next, key) == Ok(t)
    ensures SeenOk(Commit(n, t, chains)) && HoldersOk(me, Commit(n, t, chains))
    ensures RecOk(me, t) && t.rec.value.admin == n.db.rec.value.admin
    ensures t == n.db || t.rec.value.doc == next
  {
    var s, rec := n.db, n.db.rec.value;
    if next.admin != rec.admin || !next.Genuine() {
      assert t.queue == s.queue + [];
      ExtendKeeps(me, n, t, [], chains);
    } else {
      var left := me.id !in next.members;
      PutDocOk(s, next, rec.admin, left);
      var removed := Except(rec.doc.members, next.members);
      var added := Except(Except(next.members, rec.doc.members), [me.id]);
      ExceptMeaning(rec.doc.members, next.members);
      ExceptMeaning(next.members, rec.doc.members);
      ExceptMeaning(Except(next.members, rec.doc.members), [me.id]);
      var u := PutDoc(s, next, rec.admin, left).value.(keys := s.keys - SetOf(removed));
      assert u.queue == s.queue + [];
      if removed != [] && !left {
        RekeyKeeps(me, n, u, [], next.members, key, chains);
      } else if added != [] && !left && removed == [] {
        DistributeKeeps(me, n, u, added, chains);
      } else {
        assert removed == [] ==> SetOf(removed) == {};
        assert removed != [] ==> removed[0] in rec.doc.members;
        assert added != [] ==> added[0] in added;
        ExtendKeeps(me, n, u, [], chains);
      }
    }
  }

  lemma DistributeKeeps(me: Me, n: Node, u: Db, added: seq<Id>, chains: set<KeyId>)
    requires SeenOk(n) && HoldersOk(me, n) && u.queue == n.db.queue && u.keys == n.db.keys
    requires forall p :: p in u.members && p != me.id <==> (p in n.db.members && p != me.id) || p in added
    ensures var m := Commit(n, DistributeSelfKey(me, u, added), chains); SeenOk(m) && HoldersOk(me, m)
  {
    var t := DistributeSelfKey(me, u, added);
    var items := if me.id in u.keys then ToAll(added, KeyDist(u.keys[me.id])) else [];
    assert t.queue == n.db.queue + items;
    if me.id in u.keys {
      ToAllMeaning(added, KeyDist(u.keys[me.id]));
      forall p, k
        ensures WasSent(ItemsOf(items), p, k) <==> p in added && k == u.keys[me.id].key
      {
        if p in added && k == u.keys[me.id].key {
          assert Item(p, KeyDist(u.keys[me.id])) in ItemsOf(items);
        }
      }
    }
    ExtendKeeps(me, n, t, items, chains);
  }

  lemma WelcomeKeeps(me: Me, n: Node, op: Op, t: Db)
    requires Inv(me, n) && op.Welcomed? && Possible(me, n, op) && Call(me, n.db, op) == Ok(t)
    ensures RecOk(me, t)
    ensures SeenOk(Commit(n, t, ChainsIn(op))) && HoldersOk(me, Commit(n, t, ChainsIn(op)))
    ensures n.db.rec.Some? ==> t.rec.value.admin == n.db.rec.value.admin
    ensures t == n.db || t.rec.value.doc == op.doc
  {
    var s, doc := n.db, op.doc;
    if t == s {
      assert t.queue == s.queue + [];
      ExtendKeeps(me, n, t, [], ChainsIn(op));
    } else if s.rec.Some? {
      ApplyKeeps(me, n, doc, op.key, t, ChainsIn(op));
    } else {
      PutDocOk(s, doc, doc.admin, false);
      var ks := TrustedKeys(s.keys, op.keys, op.from, doc);
      TrustedKeysMeaning(s.keys, op.keys, op.from, doc);
      var u := PutDoc(s, doc, doc.admin, false).value.(keys := ks);
      assert u.queue == s.queue + [];
      RekeyKeeps(me, n, u, [], doc.members, op.key, ChainsIn(op));
    }
  }

  lemma OtherKeeps(me: Me, n: Node, op: Op, t: Db)
    requires Inv(me, n) && Possible(me, n, op) && Call(me, n.db, op) == Ok(t)
    requires op.Speaks? || op.Keyed? || op.Flushes?
    ensures RecOk(me, t) && t.rec == n.db.rec
    ensures SeenOk(Commit(n, t, ChainsIn(op))) && HoldersOk(me, Commit(n, t, ChainsIn(op)))
  {
    if op.Flushes? {
      assert forall it :: it in t.queue ==> it in n.db.queue;
      assert n.sent + ItemsOf(t.queue) == n.sent;
    } else {
      assert t.queue == n.db.queue + [];
      ExtendKeeps(me, n, t, [], ChainsIn(op));
    }
  }

  // ----- what every run keeps -----

  /** A call that commits keeps the invariant's parts; a new document is a newer one. */
  lemma CallKeeps(me: Me, n: Node, op: Op, t: Db)
    requires Inv(me, n) && Possible(me, n, op) && Call(me, n.db, op) == Ok(t)
    ensures RecOk(me, t)
    ensures SeenOk(Commit(n, t, ChainsIn(op))) && HoldersOk(me, Commit(n, t, ChainsIn(op)))
    ensures n.db.rec.Some? ==> t.rec.Some? && t.rec.value.admin == n.db.rec.value.admin
    ensures n.db.rec.Some? ==> t.rec == n.db.rec || t.rec.value.version > n.db.rec.value.version
    ensures op.Creates? || op.Adds? || op.Removes? ==>
              t.rec.Some? && t.rec.value.admin == me.admin && me.id in t.members
    ensures op.Speaks? || op.Keyed? || op.Flushes? ==> t.rec == n.db.rec
    ensures op.Welcomed? || op.Updated? ==> t.rec == n.db.rec || t.rec.value.doc == op.doc
  {
    match op
    case Creates(name, key) => CreateKeeps(me, n, name, key, t);
    case Adds(member) => AddKeeps(me, n, member, t);
    case Removes(member, key) => RemoveKeeps(me, n, member, key, t);
    case Welcomed(_, _, _, _) =>
      WelcomeKeeps(me, n, op, t);
    case Updated(doc, key) =>
      if t == n.db {
        assert t.queue == n.db.queue + [];
        ExtendKeeps(me, n, t, [], ChainsIn(op));
      } else {
        ApplyKeeps(me, n, doc, key, t, ChainsIn(op));
      }
    case _ => OtherKeeps(me, n, op, t);
  }

  lemma IssuedKeeps(me: Me, n: Node, op: Op, t: Db)
    requires RecOk(me, n.db) && RecOk(me, t) && IssuedOk(me, n) && Possible(me, n, op) && Call(me, n.db, op) == Ok(t)
    requires n.db.rec.Some? ==> t.rec.Some? && t.rec.value.admin == n.db.rec.value.admin
    requires n.db.rec.Some? ==> t.rec == n.db.rec || t.rec.value.version > n.db.rec.value.version
    requires op.Creates? || op.Adds? || op.Removes? ==>
               t.rec.Some? && t.rec.value.admin == me.admin && me.id in t.members
    requires op.Speaks? || op.Keyed? || op.Flushes? ==> t.rec == n.db.rec
    requires op.Welcomed? || op.Updated? ==> t.rec == n.db.rec || t.rec.value.doc == op.doc
    ensures IssuedOk(me, Step(me, n, op))
  {
    hide Call, NoDup;
  }

  lemma StepKeeps(me: Me, n: Node, op: Op)
    requires Inv(me, n) && Possible(me, n, op)
    ensures Inv(me, Step(me, n, op))
  {
    hide Call, RecOk, Possible;
    if Call(me, n.db, op).Ok? {
      var t := Call(me, n.db, op).value;
      CallKeeps(me, n, op, t);
      IssuedKeeps(me, n, op, t);
      hide SeenOk, HoldersOk, IssuedOk;
      SameChains(me, Commit(n, t, ChainsIn(op)), Step(me, n, op));
    }
  }

  lemma SameChains(me: Me, n: Node, m: Node)
    requires SeenOk(n) && HoldersOk(me, n) && m == n.(issued := m.issued)
    ensures SeenOk(m) && HoldersOk(me, m)
  {
  }

  /** In every reachable state. */
  lemma {:induction false} RunSafe(me: Me, ops: seq<Op>)
    requires PossibleRun(me, ops)
    ensures Inv(me, Run(me, ops))
  {
    if ops != [] {
      RunSafe(me, ops[..|ops| - 1]);
      StepKeeps(me, Run(me, ops[..|ops| - 1]), ops[|ops| - 1]);
    }
  }

  /** The group's admin key never changes, and another document is always a newer one. */
  lemma VersionRises(me: Me, n: Node, op: Op)
    requires Inv(me, n) && Possible(me, n, op) && n.db.rec.Some?
    ensures var r := Step(me, n, op).db.rec;
      && r.Some? && r.value.admin == n.db.rec.value.admin
      && (r.value.doc == n.db.rec.value.doc || r.value.doc.version > n.db.rec.value.doc.version)
  {
    if Call(me, n.db, op).Ok? {
      CallKeeps(me, n, op, Call(me, n.db, op).value);
      StepKeeps(me, n, op);
    }
  }

  lemma {:induction false} EarlierRun(me: Me, ops: seq<Op>, k: nat)
    requires PossibleRun(me, ops) && k <= |ops|
    ensures PossibleRun(me, ops[..k])
  {
    if k == |ops| {
      assert ops[..k] == ops;
    } else {
      assert ops[..|ops| - 1][..k] == ops[..k];
      EarlierRun(me, ops[..|ops| - 1], k);
    }
  }

  /** Along a run documents only get newer, and one version stays one document. */
  lemma {:induction false} VersionsAlongRun(me: Me, ops: seq<Op>, k: nat)
    requires PossibleRun(me, ops) && k <= |ops| && Run(me, ops[..k]).db.rec.Some?
    ensures var before, now := Run(me, ops[..k]).db.rec.value, Run(me, ops).db.rec;
      && now.Some? && now.value.admin == before.admin
      && (now.value.doc == before.doc || now.value.doc.version > before.doc.version)
  {
    if k == |ops| {
      assert ops[..k] == ops;
    } else {
      var init := ops[..|ops| - 1];
      assert init[..k] == ops[..k];
      VersionsAlongRun(me, init, k);
      RunSafe(me, init);
      VersionRises(me, Run(me, init), ops[|ops| - 1]);
    }
  }

  /** No event replaces the chain stored for another member by one of an older generation. */
  lemma GenerationsRise(me: Me, n: Node, op: Op, p: Id)
    requires Inv(me, n) && Possible(me, n, op) && p != me.id
    requires p in n.db.keys && p in Step(me, n, op).db.keys
    ensures Step(me, n, op).db.keys[p].generation >= n.db.keys[p].generation
  {
  }

  /** Between two moments of a run the stored chain goes back only if it was gone in between. */
  lemma {:induction false} GenerationsAlongRun(me: Me, ops: seq<Op>, k: nat, p: Id)
    requires PossibleRun(me, ops) && k <= |ops| && p != me.id
    requires forall j :: k <= j <= |ops| ==> p in Run(me, ops[..j]).db.keys
    ensures p in Run(me, ops).db.keys
    ensures Run(me, ops).db.keys[p].generation >= Run(me, ops[..k]).db.keys[p].generation
  {
    assert ops[..|ops|] == ops;
    if k < |ops| {
      var init := ops[..|ops| - 1];
      forall j | k <= j <= |init|
        ensures p in Run(me, init[..j]).db.keys
      {
        assert init[..j] == ops[..j];
      }
      assert init[..k] == ops[..k];
      GenerationsAlongRun(me, init, k, p);
      RunSafe(me, init);
      GenerationsRise(me, Run(me, init), ops[|ops| - 1], p);
    }
  }

  /** Whoever stops being a member never gets the chain used from then on: it is a new one. */
  lemma LeaverIsCutOff(me: Me, n: Node, op: Op, p: Id)
    requires Inv(me, n) && Possible(me, n, op) && p != me.id
    requires p in n.db.members && p !in Step(me, n, op).db.members
    requires me.id in Step(me, n, op).db.keys
    ensures var m := Step(me, n, op);
      m.db.keys[me.id].key !in n.seen && !WasSent(m.sent, p, m.db.keys[me.id].key)
  {
    StepKeeps(me, n, op);
  }

  /** A text goes to exactly those who were sent the chain it is under. */
  lemma AudienceIsHolders(me: Me, n: Node)
    requires Inv(me, n) && SendText(me, n.db).Ok?
    ensures forall p :: p in SendText(me, n.db).value.1 <==> WasSent(n.sent, p, n.db.keys[me.id].key)
    ensures forall p :: p in SendText(me, n.db).value.1 <==> p in n.db.rec.value.doc.members && p != me.id
  {
  }

  /** Nodes that follow one admin agree on the members of every version. */
  lemma SameVersionSameMembers(admin: Me, a: Node, me: Me, n: Node, you: Me, m: Node)
    requires Inv(admin, a) && Inv(me, n) && Inv(you, m) && n.db.rec.Some? && m.db.rec.Some?
    requires n.db.rec.value.admin == m.db.rec.value.admin == admin.admin
    requires n.db.rec.value.doc in a.issued && m.db.rec.value.doc in a.issued
    requires n.db.rec.value.version == m.db.rec.value.version
    ensures n.db.members == m.db.members
  {
  }
}
