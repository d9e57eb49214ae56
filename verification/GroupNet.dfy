/**
 The group over all its nodes: every node follows the protocol, and what arrives is what some node
 queued, any number of times and in any order. The group is created once, by the node `a`.
 */
module GroupNet {
  import opened Prelude
  import opened Group
  import opened GroupRuns

  /** The nodes that did anything, and who drew each chain. */
  datatype World = World(nodes: map<Id, Node>, owner: map<KeyId, Id>)

  datatype Event = Event(who: Id, op: Op)

  const EMPTY: World := World(map[], map[])

  /** Every node has an admin key of its own. */
  function Who(p: Id): Me {
    Me(p, p)
  }

  function At(w: World, p: Id): Node {
    if p in w.nodes then w.nodes[p] else START
  }

  function Drawn(op: Op): Option<KeyId> {
    match op
    case Creates(_, key) => Some(key)
    case Removes(_, key) => Some(key)
    case Updated(_, key) => Some(key)
    case Welcomed(_, _, _, key) => Some(key)
    case _ => None
  }

  /** Entropy is new to everybody, the group id too; an arrival was queued for the node that gets it. */
  ghost predicate May(a: Id, w: World, e: Event) {
    && (Drawn(e.op).Some? ==> Drawn(e.op).value !in w.owner)
    && match e.op
       case Creates(_, _) => e.who == a && At(w, a).db.rec.None?
       case Welcomed(from, doc, ks, _) => Item(e.who, Welcome(doc, ks)) in At(w, from).sent
       case Updated(doc, _) => exists q :: Item(e.who, Update(doc)) in At(w, q).sent
       case Keyed(from, dist) => Item(e.who, KeyDist(dist)) in At(w, from).sent
       case _ => true
  }

  function Next(w: World, e: Event): World {
    World(w.nodes[e.who := Step(Who(e.who), At(w, e.who), e.op)],
          if Drawn(e.op).Some? then w.owner[Drawn(e.op).value := e.who] else w.owner)
  }

  function RunAll(es: seq<Event>): World {
    if es == [] then EMPTY else Next(RunAll(es[..|es| - 1]), es[|es| - 1])
  }

  ghost predicate MayRun(a: Id, es: seq<Event>) {
    es == [] || (MayRun(a, es[..|es| - 1]) && May(a, RunAll(es[..|es| - 1]), es[|es| - 1]))
  }

  // ----- the invariant -----

  predicate Owned(owner: map<KeyId, Id>, k: KeyId, p: Id) {
    k in owner && owner[k] == p
  }

  /** What node q may have queued: documents of the group, its own chain, and chains of their owners. */
  ghost predicate ItemOk(issued: set<Doc>, owner: map<KeyId, Id>, a: Id, q: Id, it: Item) {
    && it.to != q
    && match it.body
       case Welcome(doc, ks) =>
         && q == a && doc in issued && it.to in doc.members && |ks| <= MAX_MEMBERS
         && forall e :: e in ks ==> Owned(owner, e.1.key, e.0)
       case Update(doc) => doc in issued
       case KeyDist(d) => Owned(owner, d.key, q)
  }

  ghost predicate NodeOk(issued: set<Doc>, owner: map<KeyId, Id>, a: Id, q: Id, n: Node) {
    && Inv(Who(q), n)
    && (q != a ==> n.issued == {})
    && (n.db.rec.Some? ==> n.db.rec.value.admin == a && n.db.rec.value.doc in issued)
    && (forall k :: k in n.seen ==> k in owner)
    && (forall r :: r in n.db.keys ==> Owned(owner, n.db.keys[r].key, r))
    && (forall it :: it in n.sent ==> ItemOk(issued, owner, a, q, it))
  }

  ghost predicate NetInv(a: Id, w: World) {
    && (forall q :: NodeOk(At(w, a).issued, w.owner, a, q, At(w, q)))
    && (forall d :: d in At(w, a).issued ==> d.signer == a && d.Valid() && NoDup(d.members))
  }

  // ----- one operation at one node -----

  /** What an operation queues. */
  ghost predicate NewItem(me: Me, n: Node, op: Op, t: Db, it: Item) {
    && it.to != me.id
    && match it.body
       case Welcome(doc, _) =>
         && op.Adds? && n.db.rec.Some? && t.rec.Some? && t.rec.value.version > n.db.rec.value.version
         && it == WelcomeFor(t, op.member) && op.member in t.members && |t.rec.value.doc.members| <= MAX_MEMBERS
       case Update(doc) => (op.Adds? || op.Removes?) && t.rec.Some? && doc == t.rec.value.doc
       case KeyDist(d) => me.id in t.keys && d == t.keys[me.id]
  }

  /** Where a stored chain comes from. */
  ghost predicate KeyFrom(me: Me, n: Node, op: Op, t: Db, r: Id)
    requires r in t.keys
  {
    || (r in n.db.keys && t.keys[r].key == n.db.keys[r].key)
    || (r == me.id && Drawn(op) == Some(t.keys[r].key))
    || (op.Keyed? && r == op.from && t.keys[r] == op.dist)
    || (op.Welcomed? && r == op.from && (r, t.keys[r]) in op.keys)
  }

  /** Queued besides what was there: only the own chain, to others. */
  ghost predicate OwnChainTo(me: Me, q: seq<Item>, t: Db, it: Item) {
    it in q || (it.to != me.id && me.id in t.keys && it.body == KeyDist(t.keys[me.id]))
  }

  lemma RekeyEffect(me: Me, s: Db, ms: seq<Id>, key: KeyId)
    ensures var t := Rekey(me, s, ms, key);
      && (forall it :: it in t.queue ==> OwnChainTo(me, s.queue, t, it))
      && (forall r :: r in t.keys ==> r in s.keys || r == me.id)
      && (forall r :: r in t.keys ==> if r == me.id then t.keys[r].key == key else t.keys[r] == s.keys[r])
  {
    var t := Rekey(me, s, ms, key);
    FanoutMeaning(ms, me.id, KeyDist(t.keys[me.id]));
  }

  lemma ApplyEffect(me: Me, s: Db, rec: Rec, next: Doc, key: KeyId, t: Db)
    requires ApplyMembership(me, s, rec, next, key) == Ok(t)
    ensures forall it :: it in t.queue ==> OwnChainTo(me, s.queue, t, it)
    ensures forall r :: r in t.keys ==> (r in s.keys && t.keys[r] == s.keys[r]) || (r == me.id && t.keys[r].key == key)
  {
    if next.admin == rec.admin && next.Genuine() {
      var left := me.id !in next.members;
      PutDocOk(s, next, rec.admin, left);
      var removed := Except(rec.doc.members, next.members);
      var added := Except(Except(next.members, rec.doc.members), [me.id]);
      var u := PutDoc(s, next, rec.admin, left).value.(keys := s.keys - SetOf(removed));
      hide PutDoc, Except, Rekey;
      if removed != [] && !left {
        RekeyEffect(me, u, next.members, key);
      } else if added != [] && !left && removed == [] {
        ExceptMeaning(Except(next.members, rec.doc.members), [me.id]);
        if me.id in u.keys {
          ToAllMeaning(added, KeyDist(u.keys[me.id]));
        }
      }
    }
  }

  lemma WelcomeEffect(me: Me, s: Db, from: Id, doc: Doc, ks: seq<(Id, Dist)>, key: KeyId, t: Db)
    requires OnWelcome(me, s, from, doc, ks, key) == Ok(t)
    ensures forall it :: it in t.queue ==> OwnChainTo(me, s.queue, t, it)
    ensures forall r :: r in t.keys ==>
              || (r in s.keys && t.keys[r] == s.keys[r]) || (r == me.id && t.keys[r].key == key)
              || (r == from && (r, t.keys[r]) in ks)
  {
    hide ApplyMembership, Rekey, PutDoc, TrustedKeys;
    if t != s {
      if s.rec.Some? {
        ApplyEffect(me, s, s.rec.value, doc, key, t);
      } else {
        PutDocOk(s, doc, doc.admin, false);
        TrustedKeysMeaning(s.keys, ks, from, doc);
        var u := PutDoc(s, doc, doc.admin, false).value.(keys := TrustedKeys(s.keys, ks, from, doc));
        RekeyEffect(me, u, doc.members, key);
      }
    }
  }

  lemma RemoveEffect(me: Me, s: Db, member: Id, key: KeyId, t: Db)
    requires Remove(me, s, member, key) == Ok(t)
    ensures t.rec.Some? && forall it :: it in t.queue ==>
              OwnChainTo(me, s.queue, t, it) || (it.to != me.id && it.body == Update(t.rec.value.doc))
    ensures forall r :: r in t.keys ==> (r in s.keys && t.keys[r] == s.keys[r]) || (r == me.id && t.keys[r].key == key)
  {
    var prior := s.rec.value.doc;
    var next := Doc((prior.version + 1) % U64, prior.name, prior.admin, Except(prior.members, [member]), me.admin);
    PutDocOk(s, next, s.rec.value.admin, s.rec.value.left);
    FanoutMeaning(prior.members, me.id, Update(next));
    var u := PutDoc(s, next, s.rec.value.admin, s.rec.value.left).value
      .(keys := s.keys - {member}, queue := s.queue + Fanout(prior.members, me.id, Update(next)));
    hide PutDoc, Except, Fanout;
    RekeyEffect(me, u, next.members, key);
  }

  lemma AddEffect(me: Me, s: Db, member: Id, t: Db)
    requires RecOk(me, s) && Add(me, s, member) == Ok(t)
    requires (s.rec.Some? && s.rec.value.admin == me.admin ==> me.id in s.members)
    ensures s.rec.Some? && t.rec.Some? && t.keys == s.keys && member in t.members
    ensures |t.rec.value.doc.members| <= MAX_MEMBERS
    ensures forall it :: it in t.queue ==>
              || it in s.queue
              || (member != me.id && it == WelcomeFor(t, member) && t.rec.value.version > s.rec.value.version)
              || (it.to != me.id && it.body == Update(t.rec.value.doc))
  {
    if member !in s.members {
      var added := AddQueues(me, s, member, t);
    }
  }

  /** What one committed operation queues and where its chains come from. */
  lemma CallEffect(me: Me, n: Node, op: Op, t: Db)
    requires Inv(me, n) && Possible(me, n, op) && Call(me, n.db, op) == Ok(t)
    ensures forall it :: it in t.queue ==> it in n.db.queue || NewItem(me, n, op, t, it)
    ensures forall r :: r in t.keys ==> KeyFrom(me, n, op, t, r)
  {
    hide Add, Remove, OnWelcome, ApplyMembership, SeenOk, HoldersOk, NoDup;
    match op
    case Adds(member) => AddEffect(me, n.db, member, t);
    case Removes(member, key) => RemoveEffect(me, n.db, member, key, t);
    case Welcomed(from, doc, ks, key) => WelcomeEffect(me, n.db, from, doc, ks, key, t);
    case Updated(doc, key) =>
      if t != n.db {
        ApplyEffect(me, n.db, n.db.rec.value, doc, key, t);
      }
    case Flushes(i) => assert forall it :: it in t.queue ==> it in n.db.queue;
    case _ =>
  }

  // ----- what every run of the whole group keeps -----

  lemma Grows(issued: set<Doc>, issued': set<Doc>, owner: map<KeyId, Id>, key: Option<KeyId>, p: Id,
              a: Id, q: Id, n: Node)
    requires NodeOk(issued, owner, a, q, n) && issued <= issued' && (key.Some? ==> key.value !in owner)
    ensures NodeOk(issued', if key.Some? then owner[key.value := p] else owner, a, q, n)
  {
    hide Inv;
    var owner' := if key.Some? then owner[key.value := p] else owner;
    forall it | it in n.sent
      ensures ItemOk(issued', owner', a, q, it)
    {
      assert ItemOk(issued, owner, a, q, it);
    }
  }

  /** What arrives was queued by somebody. */
  lemma Arrived(a: Id, w: World, e: Event)
    requires NetInv(a, w) && May(a, w, e)
    ensures match e.op
      case Welcomed(from, doc, ks, _) =>
        && ItemOk(At(w, a).issued, w.owner, a, from, Item(e.who, Welcome(doc, ks)))
        && (forall x :: x in ks ==> Owned(w.owner, x.1.key, x.0))
      case Updated(doc, _) => doc in At(w, a).issued
      case Keyed(from, dist) => ItemOk(At(w, a).issued, w.owner, a, from, Item(e.who, KeyDist(dist)))
      case _ => true
  {
    match e.op
    case Welcomed(from, doc, ks, _) => assert NodeOk(At(w, a).issued, w.owner, a, from, At(w, from));
    case Updated(doc, _) =>
      var q :| Item(e.who, Update(doc)) in At(w, q).sent;
      assert NodeOk(At(w, a).issued, w.owner, a, q, At(w, q));
      assert ItemOk(At(w, a).issued, w.owner, a, q, Item(e.who, Update(doc)));
    case Keyed(from, _) => assert NodeOk(At(w, a).issued, w.owner, a, from, At(w, from));
    case _ =>
  }

  lemma MayPossible(a: Id, w: World, e: Event)
    requires NetInv(a, w) && May(a, w, e)
    ensures Possible(Who(e.who), At(w, e.who), e.op)
  {
    Arrived(a, w, e);
    var n := At(w, e.who);
    assert NodeOk(At(w, a).issued, w.owner, a, e.who, n);
    hide Inv;
    if e.op.Welcomed? || e.op.Updated? {
      assert e.op.doc in At(w, a).issued;
    }
  }

  lemma SignerKeeps(a: Id, w: World, e: Event)
    requires NetInv(a, w) && May(a, w, e)
    ensures forall d :: d in Step(Who(e.who), At(w, e.who), e.op).issued ==>
              d.signer == a && d.Valid() && NoDup(d.members)
    ensures At(w, e.who).issued <= Step(Who(e.who), At(w, e.who), e.op).issued
    ensures e.who != a ==> Step(Who(e.who), At(w, e.who), e.op).issued == {}
  {
    var me, n := Who(e.who), At(w, e.who);
    assert NodeOk(At(w, a).issued, w.owner, a, e.who, n);
    MayPossible(a, w, e);
    StepKeeps(me, n, e.op);
    if Call(me, n.db, e.op).Ok? {
      CallKeeps(me, n, e.op, Call(me, n.db, e.op).value);
    }
  }

  /** The chains known after a committed operation have their owners. */
  lemma CommitOwned(a: Id, w: World, e: Event, t: Db, owner: map<KeyId, Id>)
    requires NetInv(a, w) && May(a, w, e) && Call(Who(e.who), At(w, e.who).db, e.op) == Ok(t)
    requires forall k :: k in w.owner ==> k in owner && owner[k] == w.owner[k]
    requires Drawn(e.op).Some? ==> Owned(owner, Drawn(e.op).value, e.who)
    ensures forall r :: r in t.keys ==> Owned(owner, t.keys[r].key, r)
    ensures forall k :: k in At(w, e.who).seen + ChainsIn(e.op) ==> k in owner
  {
    var me, n := Who(e.who), At(w, e.who);
    Arrived(a, w, e);
    MayPossible(a, w, e);
    assert NodeOk(At(w, a).issued, w.owner, a, e.who, n);
    CallEffect(me, n, e.op, t);
    hide Call, NetInv, Inv, ItemOk, Possible, May;
    forall r | r in t.keys
      ensures Owned(owner, t.keys[r].key, r)
    {
      assert KeyFrom(me, n, e.op, t, r);
      if e.op.Keyed? && r == e.op.from && t.keys[r] == e.op.dist {
        DistOwned(At(w, a).issued, w.owner, a, r, Item(e.who, KeyDist(t.keys[r])));
      }
    }
    if e.op.Keyed? {
      DistOwned(At(w, a).issued, w.owner, a, e.op.from, Item(e.who, KeyDist(e.op.dist)));
    }
  }

  lemma DistOwned(issued: set<Doc>, owner: map<KeyId, Id>, a: Id, q: Id, it: Item)
    requires ItemOk(issued, owner, a, q, it) && it.body.KeyDist?
    ensures Owned(owner, it.body.dist.key, q)
  {
  }

  lemma {:induction false} CollectDistsShort(keys: map<Id, Dist>, ms: seq<Id>, exclude: Id)
    ensures |CollectDists(keys, ms, exclude)| <= |ms|
  {
    if ms != [] {
      CollectDistsShort(keys, ms[..|ms| - 1], exclude);
    }
  }

  /** So has what it queues, and its documents are the group's. */
  lemma CommitItems(me: Me, n: Node, op: Op, t: Db, issued: set<Doc>, owner: map<KeyId, Id>, a: Id, it: Item)
    requires NewItem(me, n, op, t, it) && (op.Adds? ==> me.id == a)
    requires t.rec.Some? ==> t.rec.value.doc in issued && t.members == SetOf(t.rec.value.doc.members)
    requires forall r :: r in t.keys ==> Owned(owner, t.keys[r].key, r)
    ensures ItemOk(issued, owner, a, me.id, it)
  {
    if it.body.Welcome? {
      CollectDistsMeaning(t.keys, t.rec.value.doc.members, op.member);
      CollectDistsShort(t.keys, t.rec.value.doc.members, op.member);
    }
  }

  lemma CommitRec(a: Id, w: World, e: Event, t: Db)
    requires NetInv(a, w) && May(a, w, e) && Call(Who(e.who), At(w, e.who).db, e.op) == Ok(t)
    ensures Inv(Who(e.who), Step(Who(e.who), At(w, e.who), e.op)) && RecOk(Who(e.who), t)
    ensures t.rec.Some? ==> t.rec.value.admin == a
    ensures t.rec.Some? ==> t.rec.value.doc in At(w, a).issued + Step(Who(e.who), At(w, e.who), e.op).issued
    ensures e.op.Adds? || e.op.Removes? ==> e.who == a
  {
    var me, n := Who(e.who), At(w, e.who);
    assert NodeOk(At(w, a).issued, w.owner, a, e.who, n);
    Arrived(a, w, e);
    MayPossible(a, w, e);
    StepKeeps(me, n, e.op);
    CallKeeps(me, n, e.op, t);
    hide Call, SeenOk, HoldersOk, NodeOk, ItemOk;
    if e.op.Welcomed? || e.op.Updated? {
      IssuedAdmin(a, w, e.op.doc);
    }
  }

  lemma IssuedAdmin(a: Id, w: World, doc: Doc)
    requires NetInv(a, w) && doc in At(w, a).issued
    ensures doc.admin == a
  {
    assert NodeOk(At(w, a).issued, w.owner, a, a, At(w, a));
  }

  /** A committed operation at node p. */
  lemma CommitOk(a: Id, w: World, e: Event, t: Db, issued: set<Doc>, owner: map<KeyId, Id>)
    requires NetInv(a, w) && May(a, w, e) && Call(Who(e.who), At(w, e.who).db, e.op) == Ok(t)
    requires NodeOk(issued, owner, a, e.who, At(w, e.who)) && At(w, a).issued <= issued
    requires forall k :: k in w.owner ==> k in owner && owner[k] == w.owner[k]
    requires Drawn(e.op).Some? ==> Owned(owner, Drawn(e.op).value, e.who)
    requires e.who == a ==> issued == Step(Who(a), At(w, a), e.op).issued
    ensures NodeOk(issued, owner, a, e.who, Step(Who(e.who), At(w, e.who), e.op))
  {
    hide Call, NetInv, Inv, RecOk, SeenOk, HoldersOk, IssuedOk, ItemOk, NewItem, KeyFrom, Owned, Possible, May;
    hide ChainsIn, SetOf, NoDup;
    var me, n := Who(e.who), At(w, e.who);
    var m := Step(me, n, e.op);
    MayPossible(a, w, e);
    SignerKeeps(a, w, e);
    CommitRec(a, w, e, t);
    CommitOwned(a, w, e, t, owner);
    CallEffect(me, n, e.op, t);
    if t.rec.Some? {
      RowsOf(me, t);
    }
    forall it | it in m.sent
      ensures ItemOk(issued, owner, a, e.who, it)
    {
      if it !in n.sent {
        assert it !in n.db.queue by {
          QueueSent(me, n, it);
        }
        CommitItems(me, n, e.op, t, issued, owner, a, it);
      }
    }
  }

  lemma RowsOf(me: Me, t: Db)
    requires RecOk(me, t) && t.rec.Some?
    ensures t.members == SetOf(t.rec.value.doc.members)
  {
  }

  lemma QueueSent(me: Me, n: Node, it: Item)
    requires Inv(me, n)
    ensures it in n.db.queue ==> it in n.sent
  {
  }

  lemma NetStep(a: Id, w: World, e: Event)
    requires NetInv(a, w) && May(a, w, e)
    ensures NetInv(a, Next(w, e))
  {
    hide Step, Inv, ItemOk, IssuedOk, HoldersOk, SeenOk, RecOk;
    var w' := Next(w, e);
    var issued, issued' := At(w, a).issued, At(w', a).issued;
    SignerKeeps(a, w, e);
    forall q
      ensures NodeOk(issued', w'.owner, a, q, At(w', q))
    {
      assert NodeOk(issued, w.owner, a, q, At(w, q));
      Grows(issued, issued', w.owner, Drawn(e.op), e.who, a, q, At(w, q));
      if q == e.who {
        var r := Call(Who(q), At(w, q).db, e.op);
        if r.Ok? {
          CommitOk(a, w, e, r.value, issued', w'.owner);
        } else {
          FailedStep(Who(q), At(w, q), e.op);
        }
      }
    }
  }

  lemma FailedStep(me: Me, n: Node, op: Op)
    requires Call(me, n.db, op).Err?
    ensures Step(me, n, op) == n
  {
  }

  lemma {:induction false} RunKeeps(a: Id, es: seq<Event>)
    requires MayRun(a, es)
    ensures NetInv(a, RunAll(es))
  {
    if es == [] {
      assert forall q :: At(EMPTY, q) == START;
    } else {
      RunKeeps(a, es[..|es| - 1]);
      NetStep(a, RunAll(es[..|es| - 1]), es[|es| - 1]);
    }
  }

  /** In every reachable state of the group, nodes at one version have the same members. */
  lemma FollowersAgree(a: Id, es: seq<Event>, p: Id, q: Id)
    requires MayRun(a, es)
    requires var w := RunAll(es);
      At(w, p).db.rec.Some? && At(w, q).db.rec.Some? && At(w, p).db.rec.value.version == At(w, q).db.rec.value.version
    ensures At(RunAll(es), p).db.members == At(RunAll(es), q).db.members
    ensures At(RunAll(es), p).db.rec.value.doc == At(RunAll(es), q).db.rec.value.doc
  {
    var w := RunAll(es);
    RunKeeps(a, es);
    assert NodeOk(At(w, a).issued, w.owner, a, p, At(w, p)) && NodeOk(At(w, a).issued, w.owner, a, q, At(w, q));
    assert NodeOk(At(w, a).issued, w.owner, a, a, At(w, a));
    SameVersionSameMembers(Who(a), At(w, a), Who(p), At(w, p), Who(q), At(w, q));
  }
}
