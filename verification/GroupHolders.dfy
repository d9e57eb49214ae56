/**
 Who holds a member's chain, over the whole group: its owner sends it to the members it knows, and
 the admin's welcomes hand it on. Exactly when a node skips a document can that leave a holder
 behind that the node does not count.
 */
module GroupHolders {
  import opened Prelude
  import opened Group
  import opened GroupRuns
  import opened GroupNet

  function OwnChain(w: World, x: Id): KeyId
    requires x in At(w, x).db.keys
  {
    At(w, x).db.keys[x].key
  }

  /** A welcome of the admin that hands on chain k. */
  ghost predicate HandsOn(a: Id, w: World, it: Item, k: KeyId) {
    it in At(w, a).sent && it.body.Welcome? && Carries(it, k)
  }

  /** Whoever was handed x's chain is a member that x counts, or joined by a document x has yet to see. */
  ghost predicate Counted(a: Id, w: World, x: Id) {
    x != a && x in At(w, x).db.keys && At(w, x).db.rec.Some? ==>
      forall it :: HandsOn(a, w, it, OwnChain(w, x)) ==>
        it.to in At(w, x).db.members || it.body.doc.version > At(w, x).db.rec.value.version
  }

  /** A newer document reaches node x. */
  predicate Newer(w: World, x: Id, op: Op) {
    && (op.Updated? || op.Welcomed?) && At(w, x).db.rec.Some?
    && op.doc.version > At(w, x).db.rec.value.version
  }

  /**
   x passes over a welcome: it applies a document that removes nobody, while somebody was handed
   its chain by a welcome no newer than that and is not in the document.
   */
  ghost predicate PassesOver(a: Id, w: World, x: Id, op: Op) {
    && x != a && Newer(w, x, op) && x in At(w, x).db.keys && At(w, x).db.members <= SetOf(op.doc.members)
    && exists it :: HandsOn(a, w, it, OwnChain(w, x))
         && it.body.doc.version <= op.doc.version && it.to !in op.doc.members
  }

  // ----- one event -----

  /** The member table is the document's, and no document is newer than the admin's own. */
  lemma TableOf(a: Id, w: World, x: Id)
    requires NetInv(a, w) && At(w, x).db.rec.Some?
    ensures At(w, x).db.members == SetOf(At(w, x).db.rec.value.doc.members)
    ensures At(w, x).db.keys.Keys <= At(w, x).db.members
    ensures At(w, x).db.rec.value.version == At(w, x).db.rec.value.doc.version
    ensures x == a ==> a in At(w, a).db.members
    ensures x == a ==> forall d :: d in At(w, a).issued ==> d.version <= At(w, a).db.rec.value.version
  {
    assert NodeOk(At(w, a).issued, w.owner, a, x, At(w, x));
  }

  /** Nobody but the admin hands on a chain that is not its own. */
  lemma OnlyWelcomes(a: Id, w: World, x: Id, q: Id, it: Item)
    requires NetInv(a, w) && x in At(w, x).db.keys && q != x && it in At(w, q).sent && Carries(it, OwnChain(w, x))
    ensures q == a && x != a && HandsOn(a, w, it, OwnChain(w, x))
  {
    assert NodeOk(At(w, a).issued, w.owner, a, q, At(w, q)) && NodeOk(At(w, a).issued, w.owner, a, x, At(w, x));
    assert ItemOk(At(w, a).issued, w.owner, a, q, it);
  }

  /** A chain never drawn before was not handed on. */
  lemma NewChain(a: Id, w: World, k: KeyId)
    requires NetInv(a, w) && k !in w.owner
    ensures forall it :: !HandsOn(a, w, it, k)
  {
    var n := At(w, a);
    assert NodeOk(At(w, a).issued, w.owner, a, a, n);
    forall it
      ensures !HandsOn(a, w, it, k)
    {
      if HandsOn(a, w, it, k) {
        assert WasSent(n.sent, it.to, k);
      }
    }
  }

  /** A newer document that arrives is always applied. */
  lemma NewerIsApplied(a: Id, w: World, e: Event)
    requires NetInv(a, w) && May(a, w, e) && Newer(w, e.who, e.op)
    ensures var s := At(w, e.who).db;
      && Call(Who(e.who), s, e.op) == ApplyMembership(Who(e.who), s, s.rec.value, e.op.doc, e.op.key)
      && Call(Who(e.who), s, e.op).Ok?
      && e.op.doc.admin == s.rec.value.admin && e.op.doc.Genuine() && NoDup(e.op.doc.members)
      && e.op.doc in At(w, a).issued
  {
    Arrived(a, w, e);
    assert NodeOk(At(w, a).issued, w.owner, a, e.who, At(w, e.who));
    IssuedAdmin(a, w, e.op.doc);
    PutDocOk(At(w, e.who).db, e.op.doc, e.op.doc.admin, e.who !in e.op.doc.members);
  }

  /** What applying a document does to the own chain: a new one exactly when somebody goes. */
  lemma AppliedChain(me: Me, s: Db, next: Doc, key: KeyId, t: Db)
    requires RecOk(me, s) && s.rec.Some? && ApplyMembership(me, s, s.rec.value, next, key) == Ok(t)
    requires next.admin == s.rec.value.admin && next.Genuine()
    ensures t.rec.Some? && t.rec.value.doc == next && t.rec.value.version == next.version
    ensures t.members == SetOf(next.members)
    ensures s.members <= t.members && me.id in s.keys ==> me.id in t.keys && t.keys[me.id].key == s.keys[me.id].key
    ensures s.members <= t.members && me.id !in s.keys ==> me.id !in t.keys
    ensures !(s.members <= t.members) && me.id in t.keys ==> t.keys[me.id].key == key
  {
    var rec := s.rec.value;
    PutDocOk(s, next, rec.admin, me.id !in next.members);
    var removed := Except(rec.doc.members, next.members);
    ExceptMeaning(rec.doc.members, next.members);
    if removed != [] {
      assert removed[0] in removed;
      assert removed[0] in s.members && removed[0] !in t.members;
    } else {
      assert s.keys - SetOf(removed) == s.keys;
    }
  }

  /** Any other event leaves record and own chain alone, or gives the node a new chain. */
  lemma OtherEvent(me: Me, n: Node, op: Op)
    requires Inv(me, n) && Possible(me, n, op) && !(op.Adds? || op.Removes? || op.Creates?)
    requires (op.Updated? || op.Welcomed?) && n.db.rec.Some? ==> op.doc.version <= n.db.rec.value.version
    ensures var t := Step(me, n, op).db;
      && (t.rec == n.db.rec || n.db.rec.None?)
      && (t.rec == n.db.rec ==>
            t.members == n.db.members && (me.id in t.keys <==> me.id in n.db.keys)
            && (me.id in t.keys ==> t.keys[me.id].key == n.db.keys[me.id].key))
      && (t.rec != n.db.rec && me.id in t.keys ==> Drawn(op) == Some(t.keys[me.id].key))
  {
    hide HoldersOk, SeenOk, IssuedOk, NoDup;
    if op.Welcomed? && n.db.rec.None? {
      PutDocOk(n.db, op.doc, op.doc.admin, false);
    }
  }

  /** A newer document: the node loses count exactly when it passes over a welcome. */
  lemma NewerEvent(a: Id, w: World, x: Id, op: Op)
    requires NetInv(a, w) && May(a, w, Event(x, op)) && Counted(a, w, x) && x != a && Newer(w, x, op)
    ensures Counted(a, Next(w, Event(x, op)), x) <==> !PassesOver(a, w, x, op)
  {
    hide NetInv, Inv, Carries;
    var e := Event(x, op);
    var me, n := Who(x), At(w, x);
    assert At(Next(w, e), a) == At(w, a);
    TableOf(a, w, x);
    NodeRec(a, w, x);
    NewChain(a, w, op.key);
    NewerIsApplied(a, w, e);
    var t, w' := Call(me, n.db, op).value, Next(w, e);
    AppliedChain(me, n.db, op.doc, op.key, t);
    hide Call, May;
    assert At(w', x).db == t;
    assert forall it, k :: HandsOn(a, w', it, k) == HandsOn(a, w, it, k);
    hide HandsOn, Step;
  }

  lemma NodeRec(a: Id, w: World, x: Id)
    requires NetInv(a, w)
    ensures RecOk(Who(x), At(w, x).db)
  {
    assert NodeOk(At(w, a).issued, w.owner, a, x, At(w, x));
  }

  /** An event of another node than the admin. */
  lemma OwnEvent(a: Id, w: World, x: Id, op: Op)
    requires NetInv(a, w) && May(a, w, Event(x, op)) && Counted(a, w, x) && x != a
    ensures Counted(a, Next(w, Event(x, op)), x) <==> !PassesOver(a, w, x, op)
  {
    var e := Event(x, op);
    var w', me, n := Next(w, e), Who(x), At(w, x);
    assert At(w', a) == At(w, a);
    if Newer(w, x, op) {
      NewerEvent(a, w, x, op);
    } else if Call(me, n.db, op).Ok? {
      MayPossible(a, w, e);
      if Drawn(op).Some? {
        NewChain(a, w, Drawn(op).value);
      }
      assert NodeOk(At(w, a).issued, w.owner, a, x, n);
      CommitRec(a, w, e, Call(me, n.db, op).value);
      OtherEvent(me, n, op);
      hide Step, NetInv, Inv, May, HandsOn;
    } else {
      FailedStep(me, n, op);
    }
  }

  /** An event of the admin: what it hands on is in a document that x has yet to see. */
  lemma AdminEvent(a: Id, w: World, x: Id, op: Op)
    requires NetInv(a, w) && May(a, w, Event(a, op)) && Counted(a, w, x) && x != a
    ensures Counted(a, Next(w, Event(a, op)), x)
  {
    var e := Event(a, op);
    var w', me, n := Next(w, e), Who(a), At(w, a);
    assert NodeOk(At(w, a).issued, w.owner, a, a, n) && NodeOk(At(w, a).issued, w.owner, a, x, At(w, x));
    MayPossible(a, w, e);
    if Call(me, n.db, op).Ok? {
      var t := Call(me, n.db, op).value;
      CallEffect(me, n, op, t);
      assert At(w', x) == At(w, x);
      var m := At(w', a);
      hide Call, Possible, May;
      if x in At(w, x).db.keys && At(w, x).db.rec.Some? {
        forall it | HandsOn(a, w', it, OwnChain(w, x))
          ensures it.to in At(w, x).db.members || it.body.doc.version > At(w, x).db.rec.value.version
        {
          if it in n.sent {
            assert HandsOn(a, w, it, OwnChain(w, x));
          } else {
            assert it in t.queue;
            assert NewItem(me, n, op, t, it);
          }
        }
      }
    } else {
      FailedStep(me, n, op);
    }
  }

  /** Whatever happens, a node loses count of its holders exactly when it passes over a welcome. */
  lemma CountedStep(a: Id, w: World, x: Id, e: Event)
    requires NetInv(a, w) && May(a, w, e) && Counted(a, w, x)
    ensures Counted(a, Next(w, e), x) <==> !(e.who == x && PassesOver(a, w, x, e.op))
  {
    if x != a {
      if e.who == x {
        OwnEvent(a, w, x, e.op);
      } else if e.who == a {
        AdminEvent(a, w, x, e.op);
      }
    }
  }

  // ----- conditions on the documents alone -----

  /** No document that x skips or applies holds somebody that the one it applies lacks. */
  ghost predicate SkipsNobody(a: Id, w: World, x: Id, next: Doc)
    requires At(w, x).db.rec.Some?
  {
    forall d, p :: d in At(w, a).issued && p in d.members ==>
      At(w, x).db.rec.value.version < d.version <= next.version ==> p in next.members
  }

  lemma SkipsNobodySuffices(a: Id, w: World, x: Id, op: Op)
    requires NetInv(a, w) && Counted(a, w, x) && Newer(w, x, op) && SkipsNobody(a, w, x, op.doc)
    ensures !PassesOver(a, w, x, op)
  {
    assert NodeOk(At(w, a).issued, w.owner, a, a, At(w, a));
    if x != a && x in At(w, x).db.keys && At(w, x).db.members <= SetOf(op.doc.members) {
      forall it | HandsOn(a, w, it, OwnChain(w, x)) && it.body.doc.version <= op.doc.version
        ensures it.to in op.doc.members
      {
        assert ItemOk(At(w, a).issued, w.owner, a, a, it);
      }
    }
  }

  /** Documents applied in turn skip nobody. */
  lemma NextInTurn(a: Id, w: World, x: Id, next: Doc)
    requires NetInv(a, w) && At(w, x).db.rec.Some? && next in At(w, a).issued
    requires next.version == At(w, x).db.rec.value.version + 1
    ensures SkipsNobody(a, w, x, next)
  {
    assert NodeOk(At(w, a).issued, w.owner, a, a, At(w, a));
  }

  // ----- runs -----

  /** Along the run x never passes over a welcome. */
  ghost predicate NeverPasses(a: Id, es: seq<Event>, x: Id) {
    es == []
    || (NeverPasses(a, es[..|es| - 1], x)
        && !(es[|es| - 1].who == x && PassesOver(a, RunAll(es[..|es| - 1]), x, es[|es| - 1].op)))
  }

  lemma {:induction false} RunCounted(a: Id, es: seq<Event>, x: Id)
    requires MayRun(a, es) && NeverPasses(a, es, x)
    ensures NetInv(a, RunAll(es)) && Counted(a, RunAll(es), x)
  {
    RunKeeps(a, es);
    if es != [] {
      RunCounted(a, es[..|es| - 1], x);
      CountedStep(a, RunAll(es[..|es| - 1]), x, es[|es| - 1]);
    }
  }

  /**
   Who holds the chain a member sends under, whoever handed it out: all the members it counts, and
   besides them only members of documents it has yet to see, if it never passed over a welcome.
   */
  lemma HoldersKnown(a: Id, es: seq<Event>, x: Id, p: Id)
    requires MayRun(a, es) && x in At(RunAll(es), x).db.keys
    ensures var w := RunAll(es);
      && At(w, x).db.rec.Some?
      && (p in At(w, x).db.members && p != x ==> WasSent(At(w, x).sent, p, OwnChain(w, x)))
      && (NeverPasses(a, es, x) ==> forall q :: WasSent(At(w, q).sent, p, OwnChain(w, x)) ==>
            p in At(w, x).db.members
            || exists d :: d in At(w, a).issued && p in d.members && d.version > At(w, x).db.rec.value.version)
  {
    var w := RunAll(es);
    RunKeeps(a, es);
    assert NodeOk(At(w, a).issued, w.owner, a, x, At(w, x)) && NodeOk(At(w, a).issued, w.owner, a, a, At(w, a));
    if NeverPasses(a, es, x) {
      RunCounted(a, es, x);
      forall q | WasSent(At(w, q).sent, p, OwnChain(w, x))
        ensures p in At(w, x).db.members
             || exists d :: d in At(w, a).issued && p in d.members && d.version > At(w, x).db.rec.value.version
      {
        var it :| it in At(w, q).sent && it.to == p && Carries(it, OwnChain(w, x));
        if q != x {
          OnlyWelcomes(a, w, x, q, it);
          assert ItemOk(At(w, a).issued, w.owner, a, a, it);
        }
      }
    }
  }

  /** No two members ever send under one chain. */
  lemma ChainsDiffer(a: Id, es: seq<Event>, x: Id, y: Id)
    requires MayRun(a, es) && x != y && x in At(RunAll(es), x).db.keys && y in At(RunAll(es), y).db.keys
    ensures OwnChain(RunAll(es), x) != OwnChain(RunAll(es), y)
  {
    var w := RunAll(es);
    RunKeeps(a, es);
    assert NodeOk(At(w, a).issued, w.owner, a, x, At(w, x)) && NodeOk(At(w, a).issued, w.owner, a, y, At(w, y));
  }

  // ----- a document that is overtaken -----

  /** The admin takes y in and out again; x gets only the later document. */
  function Overtake(d: Doc, a: Id, x: Id, y: Id, k2: KeyId, k3: KeyId): seq<Event> {
    [Event(a, Adds(y)), Event(a, Removes(y, k2)),
     Event(x, Updated(Doc(d.version + 2, d.name, d.admin, Except(d.members + [y], [y]), a), k3))]
  }

  /** x is as far as the admin a, which knows the chain of x. */
  ghost predicate Level(w: World, a: Id, x: Id) {
    && x != a && At(w, a).db.rec.Some? && At(w, x).db.rec.Some?
    && At(w, a).db.rec.value.doc == At(w, x).db.rec.value.doc
    && x in At(w, x).db.keys && x in At(w, a).db.keys && At(w, a).db.keys[x].key == OwnChain(w, x)
  }

  predicate Room(w: World, a: Id)
    requires At(w, a).db.rec.Some?
  {
    |At(w, a).db.rec.value.doc.members| < MAX_MEMBERS && At(w, a).db.rec.value.version + 2 < U64
  }

  /** y holds the chain of x, who does not count it and has no newer document to wait for. */
  ghost predicate LeftBehind(a: Id, w: World, x: Id, y: Id) {
    && x in At(w, x).db.keys && At(w, x).db.rec.Some? && WasSent(At(w, a).sent, y, OwnChain(w, x))
    && y !in At(w, x).db.members
    && forall d :: d in At(w, a).issued ==> d.version <= At(w, x).db.rec.value.version
  }

  /** The admin adds y. */
  lemma OvertakeAdd(a: Id, w: World, y: Id)
    requires NetInv(a, w) && At(w, a).db.rec.Some? && Room(w, a) && y !in At(w, a).db.members
    ensures var e := Event(a, Adds(y));
      var n, m, d := At(w, a), At(Next(w, e), a), At(w, a).db.rec.value.doc;
      && May(a, w, e) && m.db.rec.Some? && m.db.rec.value.version == d.version + 1
      && m.db.rec.value.doc == Doc(d.version + 1, d.name, d.admin, d.members + [y], a)
      && m.db.keys == n.db.keys && m.db.members == n.db.members + {y}
      && m.issued == n.issued + {m.db.rec.value.doc} && WelcomeFor(m.db, y) in m.sent
  {
    var me, s := Who(a), At(w, a).db;
    assert NodeOk(At(w, a).issued, w.owner, a, a, At(w, a));
    var d := s.rec.value.doc;
    PutDocOk(s, Doc(d.version + 1, d.name, d.admin, d.members + [y], a), d.admin, false);
    NoDupSnoc(d.members, y);
    hide NetInv, NodeOk, MemberRows, Fanout, CollectDists, PutDoc, NoDup, ItemOk, HoldersOk, SeenOk;
    assert Add(me, s, y).Ok?;
    var added := AddQueues(me, s, y, Add(me, s, y).value);
    assert WelcomeFor(Add(me, s, y).value, y) in added;
  }

  lemma RemoveWorks(me: Me, s: Db, y: Id, k2: KeyId)
    requires RecOk(me, s) && s.rec.Some? && s.rec.value.admin == me.admin && me.id in s.members
    requires s.rec.value.version + 1 < U64 && y in s.members && y != me.id
    ensures var r, d := Remove(me, s, y, k2), s.rec.value.doc;
      && r.Ok? && r.value.rec.Some?
      && r.value.rec.value.doc == Doc(d.version + 1, d.name, d.admin, Except(d.members, [y]), me.admin)
  {
    var d := s.rec.value.doc;
    ExceptMeaning(d.members, [y]);
    assert me.id in Except(d.members, [y]);
    PutDocOk(s, Doc(d.version + 1, d.name, d.admin, Except(d.members, [y]), me.admin), d.admin, s.rec.value.left);
    hide Fanout, Except, PutDoc, NoDup;
  }

  /** The admin removes y. */
  lemma OvertakeRemove(a: Id, w: World, y: Id, k2: KeyId)
    requires NetInv(a, w) && At(w, a).db.rec.Some? && At(w, a).db.rec.value.version + 1 < U64 && k2 !in w.owner
    requires y in At(w, a).db.members && y != a
    ensures var e := Event(a, Removes(y, k2));
      var n, m, d := At(w, a), At(Next(w, e), a), At(w, a).db.rec.value.doc;
      && May(a, w, e) && m.db.rec.Some? && m.db.rec.value.version == d.version + 1
      && m.db.rec.value.doc == Doc(d.version + 1, d.name, d.admin, Except(d.members, [y]), a)
      && m.db.members == n.db.members - {y} && n.sent <= m.sent
      && m.issued == n.issued + {m.db.rec.value.doc}
      && forall p :: p in n.db.members && p != a ==> Item(p, Update(m.db.rec.value.doc)) in m.sent
  {
    var me, n := Who(a), At(w, a);
    assert NodeOk(n.issued, w.owner, a, a, n);
    hide NetInv, NodeOk, Remove;
    RemoveWorks(me, n.db, y, k2);
    RemoveKeeps(me, n, y, k2, Remove(me, n.db, y, k2).value);
    hide Inv, SeenOk, HoldersOk, RecOk;
  }

  /** x gets the document without y. */
  lemma OvertakeUpdate(a: Id, w: World, x: Id, doc: Doc, k3: KeyId)
    requires NetInv(a, w) && x != a && At(w, x).db.rec.Some? && doc.version > At(w, x).db.rec.value.version
    requires Item(x, Update(doc)) in At(w, a).sent && k3 !in w.owner
    requires x in At(w, x).db.keys && At(w, x).db.members <= SetOf(doc.members)
    ensures var e := Event(x, Updated(doc, k3));
      var w' := Next(w, e);
      && May(a, w, e) && At(w', a) == At(w, a)
      && x in At(w', x).db.keys && OwnChain(w', x) == OwnChain(w, x) && At(w', x).db.members == SetOf(doc.members)
      && At(w', x).db.rec.Some? && At(w', x).db.rec.value.version == doc.version
  {
    var e := Event(x, Updated(doc, k3));
    NewerIsApplied(a, w, e);
    assert NodeOk(At(w, a).issued, w.owner, a, x, At(w, x));
    AppliedChain(Who(x), At(w, x).db, doc, k3, Call(Who(x), At(w, x).db, e.op).value);
  }

  lemma MaySnoc(a: Id, es: seq<Event>, e: Event)
    requires MayRun(a, es) && May(a, RunAll(es), e)
    ensures MayRun(a, es + [e]) && RunAll(es + [e]) == Next(RunAll(es), e)
  {
    assert (es + [e])[..|es|] == es;
  }

  /** After the admin has taken y in and out again. */
  lemma InAndOut(a: Id, es: seq<Event>, x: Id, y: Id, k2: KeyId, k3: KeyId)
    requires MayRun(a, es) && At(RunAll(es), a).db.rec.Some? && Room(RunAll(es), a) && k2 !in RunAll(es).owner
    requires x in At(RunAll(es), a).db.members && x != a && y !in At(RunAll(es), a).db.members
    ensures var w := RunAll(es);
      var d := At(w, a).db.rec.value.doc;
      var more := Overtake(d, a, x, y, k2, k3);
      var two := es + [more[0]] + [more[1]];
      var w2 := RunAll(two);
      && MayRun(a, two) && At(w2, x) == At(w, x) && w2.owner == w.owner[k2 := a]
      && At(w2, a).db.rec.Some? && At(w2, a).db.rec.value.doc == more[2].op.doc
      && more[2].op.doc.version == At(w, a).db.rec.value.version + 2
      && At(w2, a).issued == At(w, a).issued + {Doc(d.version + 1, d.name, d.admin, d.members + [y], a), more[2].op.doc}
      && At(w2, a).db.members == At(w, a).db.members && Item(x, Update(more[2].op.doc)) in At(w2, a).sent
      && (x in At(w, a).db.keys ==> WasSent(At(w2, a).sent, y, At(w, a).db.keys[x].key))
  {
    hide Step, Call, NodeOk, NetInv, ItemOk, May, Carries, SetOf, Except, CollectDists;
    var w := RunAll(es);
    var more := Overtake(At(w, a).db.rec.value.doc, a, x, y, k2, k3);
    RunKeeps(a, es);
    TableOf(a, w, a);
    OvertakeAdd(a, w, y);
    MaySnoc(a, es, more[0]);
    var w1 := Next(w, more[0]);
    RunKeeps(a, es + [more[0]]);
    OvertakeRemove(a, w1, y, k2);
    MaySnoc(a, es + [more[0]], more[1]);
    TableOf(a, w1, a);
    ListOf(At(w1, a).db.rec.value.doc.members, x);
    if x in At(w, a).db.keys {
      WelcomeHands(At(w1, a).db, y, x);
    }
    hide RunAll;
  }

  lemma ListOf(ms: seq<Id>, x: Id)
    ensures x in SetOf(ms) <==> x in ms
  {
  }

  /**
   From every reachable state in which x is level with the admin: y is left behind with the chain of
   x, and whatever was issued is no newer than what x has.
   */
  lemma Overtaken(a: Id, es: seq<Event>, x: Id, y: Id, k2: KeyId, k3: KeyId)
    requires MayRun(a, es) && Level(RunAll(es), a, x) && Room(RunAll(es), a)
    requires y !in At(RunAll(es), a).db.members && k2 != k3 && k2 !in RunAll(es).owner && k3 !in RunAll(es).owner
    ensures var all := es + Overtake(At(RunAll(es), a).db.rec.value.doc, a, x, y, k2, k3);
      MayRun(a, all) && LeftBehind(a, RunAll(all), x, y)
  {
    hide Step, Call, NodeOk, NetInv, ItemOk, May, Carries, SetOf, Except, WasSent;
    var w := RunAll(es);
    var more := Overtake(At(w, a).db.rec.value.doc, a, x, y, k2, k3);
    var two := es + [more[0]] + [more[1]];
    RunKeeps(a, es);
    TableOf(a, w, a);
    TableOf(a, w, x);
    InAndOut(a, es, x, y, k2, k3);
    var w2 := RunAll(two);
    RunKeeps(a, two);
    TableOf(a, w2, a);
    OvertakeUpdate(a, w2, x, more[2].op.doc, k3);
    MaySnoc(a, two, more[2]);
    assert two + [more[2]] == es + more;
    hide RunAll, Next;
  }

  lemma WelcomeHands(t: Db, y: Id, x: Id)
    requires t.rec.Some? && x in t.rec.value.doc.members && x in t.keys && x != y
    ensures Carries(WelcomeFor(t, y), t.keys[x].key)
  {
    CollectDistsMeaning(t.keys, t.rec.value.doc.members, y);
    assert (x, t.keys[x]) in CollectDists(t.keys, t.rec.value.doc.members, y);
  }

  // ----- the shortest such run -----

  function PairDoc(a: Id, x: Id): Doc {
    Doc(2, "", a, [a, x], a)
  }

  function PairKeys(a: Id, k0: KeyId): seq<(Id, Dist)> {
    [(a, Dist(1, k0, 0))]
  }

  /** a creates the group and takes x in; each learns the other's chain. */
  function Pair(a: Id, x: Id, k0: KeyId, k1: KeyId): seq<Event> {
    [Event(a, Creates("", k0)), Event(a, Adds(x)),
     Event(x, Welcomed(a, PairDoc(a, x), PairKeys(a, k0), k1)), Event(a, Keyed(x, Dist(1, k1, 0)))]
  }

  lemma Created(a: Id, k0: KeyId)
    ensures var e := Event(a, Creates("", k0));
      var m := At(Next(EMPTY, e), a);
      && May(a, EMPTY, e) && m.db.rec.Some? && m.db.rec.value.version == 1
      && m.db.rec.value.doc == Doc(1, "", a, [a], a) && m.db.members == {a} && m.db.keys == map[a := Dist(1, k0, 0)]
  {
    assert [a] == [] + [a];
    RowsUnfold([], a);
    assert {} + {a} == {a};
  }

  lemma CollectOfTwo(a: Id, x: Id, d: Dist)
    requires a != x
    ensures CollectDists(map[a := d], [a, x], x) == [(a, d)]
  {
    assert [a, x] == [a] + [x] && [a] == [] + [a];
    CollectUnfold(map[a := d], [], a, x);
    CollectUnfold(map[a := d], [a], x, x);
  }

  /** The newcomer's node after the welcome. */
  lemma Joined(a: Id, x: Id, w: World, k0: KeyId, k1: KeyId)
    requires a != x && At(w, x) == START && k1 !in w.owner
    requires Item(x, Welcome(PairDoc(a, x), PairKeys(a, k0))) in At(w, a).sent
    ensures var e := Event(x, Welcomed(a, PairDoc(a, x), PairKeys(a, k0), k1));
      var m := At(Next(w, e), x);
      && May(a, w, e) && m.db.rec.Some? && m.db.rec.value.doc == PairDoc(a, x) && m.db.rec.value.version == 2
      && x in m.db.keys && m.db.keys[x] == Dist(1, k1, 0) && Item(a, KeyDist(Dist(1, k1, 0))) in m.sent
  {
    var doc, ks, me := PairDoc(a, x), PairKeys(a, k0), Who(x);
    assert NoDup(doc.members) by {
      forall i, j
        ensures Apart(doc.members, i, j)
      {
      }
    }
    PutDocOk(START.db, doc, a, false);
    TrustedKeysMeaning(map[], ks, a, doc);
    var u := PutDoc(START.db, doc, a, false).value.(keys := TrustedKeys(map[], ks, a, doc));
    FanoutMeaning(doc.members, x, KeyDist(Dist(1, k1, 0)));
    hide PutDoc, TrustedKeys, Fanout, NoDup;
    assert Call(me, START.db, Welcomed(a, doc, ks, k1)) == Ok(Rekey(me, u, doc.members, k1));
  }

  /** x is in the group, and a has not yet received its chain. */
  lemma PairMet(a: Id, x: Id, k0: KeyId, k1: KeyId)
    requires a != x && k0 != k1
    ensures var es := Pair(a, x, k0, k1)[..3];
      var w := RunAll(es);
      && MayRun(a, es) && At(w, a).db.rec.Some? && At(w, x).db.rec.Some? && Room(w, a)
      && At(w, a).db.rec.value.doc == At(w, x).db.rec.value.doc == PairDoc(a, x) && At(w, a).db.members == {a, x}
      && At(w, a).db.keys == map[a := Dist(1, k0, 0)] && w.owner.Keys == {k0, k1}
      && x in At(w, x).db.keys && At(w, x).db.keys[x] == Dist(1, k1, 0)
      && Item(a, KeyDist(Dist(1, k1, 0))) in At(w, x).sent && forall it :: !HandsOn(a, w, it, k1)
  {
    var es := Pair(a, x, k0, k1);
    hide Step, Call, NodeOk, NetInv, May, ItemOk, HandsOn;
    assert RunAll([]) == EMPTY && MayRun(a, []);
    Created(a, k0);
    MaySnoc(a, [], es[0]);
    var w1 := Next(EMPTY, es[0]);
    RunKeeps(a, [es[0]]);
    OvertakeAdd(a, w1, x);
    CollectOfTwo(a, x, Dist(1, k0, 0));
    MaySnoc(a, [es[0]], es[1]);
    var w2 := Next(w1, es[1]);
    assert At(w2, x) == START && [a] + [x] == [a, x];
    Joined(a, x, w2, k0, k1);
    RunKeeps(a, [es[0]] + [es[1]]);
    NewChain(a, w2, k1);
    MaySnoc(a, [es[0]] + [es[1]], es[2]);
    SameAdmin(a, w2, es[2], k1);
    assert [] + [es[0]] == [es[0]] && [es[0]] + [es[1]] + [es[2]] == es[..3];
  }

  lemma SameAdmin(a: Id, w: World, e: Event, k: KeyId)
    requires e.who != a
    ensures At(Next(w, e), a) == At(w, a) && forall it :: HandsOn(a, Next(w, e), it, k) == HandsOn(a, w, it, k)
  {
  }

  lemma PairLevel(a: Id, x: Id, k0: KeyId, k1: KeyId)
    requires a != x && k0 != k1
    ensures var es := Pair(a, x, k0, k1);
      var w, before := RunAll(es), RunAll(es[..3]);
      && MayRun(a, es) && Level(w, a, x) && Room(w, a)
      && At(w, a).db.rec.value.doc == PairDoc(a, x) && At(w, a).db.members == {a, x} && w.owner.Keys == {k0, k1}
      && At(w, x) == At(before, x) && At(w, a).issued == At(before, a).issued
      && forall it :: !HandsOn(a, w, it, k1)
  {
    hide Step, MayRun, May, HandsOn, NetInv;
    var es := Pair(a, x, k0, k1);
    PairMet(a, x, k0, k1);
    Learned(a, x, RunAll(es[..3]), Dist(1, k1, 0));
    RunKeeps(a, es[..3]);
    NoneHanded(a, RunAll(es[..3]), Keyed(x, Dist(1, k1, 0)), k1);
    MaySnoc(a, es[..3], es[3]);
    assert es[..3] + [es[3]] == es;
  }

  lemma Learned(a: Id, x: Id, w: World, d: Dist)
    requires x != a && At(w, a).db.rec.Some? && x in At(w, a).db.members && x !in At(w, a).db.keys && d.generation > 0
    requires Item(a, KeyDist(d)) in At(w, x).sent
    ensures var e := Event(a, Keyed(x, d));
      && May(a, w, e) && At(Next(w, e), x) == At(w, x) && Next(w, e).owner == w.owner
      && At(Next(w, e), a).issued == At(w, a).issued
      && At(Next(w, e), a).db == At(w, a).db.(keys := At(w, a).db.keys[x := d])
  {
  }

  /** A run of seven events: y holds the chain that x sends under, and x does not know of y. */
  lemma SevenEvents(a: Id, x: Id, y: Id, k0: KeyId, k1: KeyId, k2: KeyId, k3: KeyId)
    requires a != x && y !in {a, x} && k0 != k1 && k2 !in {k0, k1} && k3 !in {k0, k1, k2}
    ensures var es := Pair(a, x, k0, k1) + Overtake(PairDoc(a, x), a, x, y, k2, k3);
      MayRun(a, es) && LeftBehind(a, RunAll(es), x, y) && !NeverPasses(a, es, x)
  {
    var start := Pair(a, x, k0, k1);
    hide MayRun, RunAll, LeftBehind, NeverPasses, Pair, Overtake;
    PairLevel(a, x, k0, k1);
    Overtaken(a, start, x, y, k2, k3);
    Behind(a, start + Overtake(PairDoc(a, x), a, x, y, k2, k3), x, y);
  }

  lemma Behind(a: Id, es: seq<Event>, x: Id, y: Id)
    requires MayRun(a, es) && LeftBehind(a, RunAll(es), x, y)
    ensures !NeverPasses(a, es, x)
  {
    if NeverPasses(a, es, x) {
      HoldersKnown(a, es, x, y);
      assert false;
    }
  }

  // ----- what the documents do not tell -----

  /** An event of the admin hands on no chain that it does not know. */
  lemma NoneHanded(a: Id, w: World, op: Op, k: KeyId)
    requires NetInv(a, w) && May(a, w, Event(a, op)) && forall it :: !HandsOn(a, w, it, k)
    requires op.Adds? ==> forall r :: r in At(w, a).db.keys ==> At(w, a).db.keys[r].key != k
    ensures forall it :: !HandsOn(a, Next(w, Event(a, op)), it, k)
  {
    var me, n, e := Who(a), At(w, a), Event(a, op);
    MayPossible(a, w, e);
    assert NodeOk(n.issued, w.owner, a, a, n);
    if Call(me, n.db, op).Ok? {
      var t := Call(me, n.db, op).value;
      CallEffect(me, n, op, t);
      if op.Adds? {
        AddEffect(me, n.db, op.member, t);
        CollectDistsMeaning(t.keys, t.rec.value.doc.members, op.member);
      }
      hide Call, NetInv, NodeOk, Inv, May, CollectDists;
      forall it | it in At(Next(w, e), a).sent
        ensures !HandsOn(a, Next(w, e), it, k)
      {
        assert !HandsOn(a, w, it, k);
        assert it in n.sent || NewItem(me, n, op, t, it);
      }
    } else {
      FailedStep(me, n, op);
      assert At(Next(w, e), a) == n;
      assert forall it :: HandsOn(a, Next(w, e), it, k) == HandsOn(a, w, it, k);
    }
  }

  lemma MayLast(a: Id, es: seq<Event>, e: Event)
    requires MayRun(a, es + [e])
    ensures MayRun(a, es) && May(a, RunAll(es), e) && RunAll(es + [e]) == Next(RunAll(es), e)
  {
    assert (es + [e])[..|es|] == es;
  }

  /** The admin takes y in and out without having the chain k of x: nobody is handed it. */
  lemma Unknown(a: Id, es: seq<Event>, y: Id, k2: KeyId, k: KeyId)
    requires MayRun(a, es + [Event(a, Adds(y))] + [Event(a, Removes(y, k2))])
    requires forall it :: !HandsOn(a, RunAll(es), it, k)
    requires forall r :: r in At(RunAll(es), a).db.keys ==> At(RunAll(es), a).db.keys[r].key != k
    ensures forall it :: !HandsOn(a, RunAll(es + [Event(a, Adds(y))] + [Event(a, Removes(y, k2))]), it, k)
  {
    hide HandsOn, NetInv, May;
    var one := es + [Event(a, Adds(y))];
    MayLast(a, one, Event(a, Removes(y, k2)));
    MayLast(a, es, Event(a, Adds(y)));
    RunKeeps(a, es);
    RunKeeps(a, one);
    NoneHanded(a, RunAll(es), Adds(y), k);
    NoneHanded(a, RunAll(one), Removes(y, k2), k);
  }

  lemma CountedTwice(a: Id, es: seq<Event>, x: Id, e: Event, f: Event)
    requires MayRun(a, es + [e] + [f]) && Counted(a, RunAll(es), x) && e.who == f.who == a != x
    ensures Counted(a, RunAll(es + [e] + [f]), x)
  {
    hide Counted, NetInv, May;
    MayLast(a, es + [e], f);
    MayLast(a, es, e);
    RunKeeps(a, es);
    RunKeeps(a, es + [e]);
    AdminEvent(a, RunAll(es), x, e.op);
    AdminEvent(a, RunAll(es + [e]), x, f.op);
  }

  /** y was handed the chain of x, and the newest document of the admin, without y, reaches x. */
  lemma Handed(a: Id, w: World, x: Id, y: Id, op: Op)
    requires NetInv(a, w) && x != a && Newer(w, x, op) && x in At(w, x).db.keys
    requires At(w, x).db.members <= SetOf(op.doc.members) && y !in op.doc.members
    requires At(w, a).db.rec.Some? && At(w, a).db.rec.value.version == op.doc.version
    requires WasSent(At(w, a).sent, y, OwnChain(w, x))
    ensures PassesOver(a, w, x, op)
  {
    var it :| it in At(w, a).sent && it.to == y && Carries(it, OwnChain(w, x));
    OnlyWelcomes(a, w, x, a, it);
    TableOf(a, w, a);
    assert NodeOk(At(w, a).issued, w.owner, a, a, At(w, a));
    assert ItemOk(At(w, a).issued, w.owner, a, a, it);
  }

  /** With the chain of x at the admin, and without it. */
  function Start(a: Id, x: Id, k0: KeyId, k1: KeyId, known: bool): seq<Event> {
    if known then Pair(a, x, k0, k1) else Pair(a, x, k0, k1)[..3]
  }

  function Twin(a: Id, x: Id, y: Id, k0: KeyId, k1: KeyId, k2: KeyId, known: bool): seq<Event> {
    Start(a, x, k0, k1, known) + [Event(a, Adds(y))] + [Event(a, Removes(y, k2))]
  }

  /** Either start: x is level with a and only its chain may be missing there. */
  lemma StartOf(a: Id, x: Id, k0: KeyId, k1: KeyId, known: bool)
    requires a != x && k0 != k1
    ensures var es := Start(a, x, k0, k1, known);
      var w := RunAll(es);
      && MayRun(a, es) && At(w, a).db.rec.Some? && At(w, x).db.rec.Some? && Room(w, a)
      && At(w, a).db.rec.value.doc == At(w, x).db.rec.value.doc == PairDoc(a, x) && At(w, a).db.members == {a, x}
      && w.owner.Keys == {k0, k1} && x in At(w, x).db.keys && OwnChain(w, x) == k1
      && (forall it :: !HandsOn(a, w, it, k1))
      && At(w, x) == At(RunAll(Start(a, x, k0, k1, true)), x)
      && At(w, a).issued == At(RunAll(Start(a, x, k0, k1, true)), a).issued
      && if known then x in At(w, a).db.keys && At(w, a).db.keys[x].key == k1
         else forall r :: r in At(w, a).db.keys ==> At(w, a).db.keys[r].key != k1
  {
    hide RunAll, MayRun, Pair, HandsOn;
    PairMet(a, x, k0, k1);
    PairLevel(a, x, k0, k1);
  }

  lemma TwinEnd(a: Id, x: Id, y: Id, k0: KeyId, k1: KeyId, k2: KeyId, k3: KeyId, known: bool)
    requires a != x && y !in {a, x} && k0 != k1 && k2 !in {k0, k1} && k3 !in {k0, k1, k2}
    ensures var es, start, e := Twin(a, x, y, k0, k1, k2, known), RunAll(Start(a, x, k0, k1, true)),
                                Overtake(PairDoc(a, x), a, x, y, k2, k3)[2];
      var w := RunAll(es);
      && MayRun(a, es) && May(a, w, e) && Counted(a, w, x) && (PassesOver(a, w, x, e.op) <==> known)
      && At(w, x) == At(start, x)
      && At(w, a).issued == At(start, a).issued + {Doc(3, "", a, [a, x, y], a), e.op.doc}
  {
    hide RunAll, MayRun, May, Pair, Except, Carries, Step, NetInv;
    var es, start := Twin(a, x, y, k0, k1, k2, known), Start(a, x, k0, k1, known);
    var more, w := Overtake(PairDoc(a, x), a, x, y, k2, k3), RunAll(es);
    var op := more[2].op;
    StartOf(a, x, k0, k1, known);
    InAndOut(a, start, x, y, k2, k3);
    assert [a, x] + [y] == [a, x, y];
    RunKeeps(a, start);
    RunKeeps(a, es);
    TableOf(a, RunAll(start), x);
    TableOf(a, w, a);
    OvertakeUpdate(a, w, x, op.doc, k3);
    CountedTwice(a, start, x, more[0], more[1]);
    if known {
      ExceptMeaning([a, x] + [y], [y]);
      Handed(a, w, x, y, op);
    } else {
      Unknown(a, start, y, k2, k1);
    }
  }

  /**
   No condition on the issued documents, even with all of what x has, is exact: two possible runs
   lead to the same documents and the same node x, and the same update then passes over a welcome
   in the one and not in the other.
   */
  lemma DocumentsDoNotDecide(a: Id, x: Id, y: Id, k0: KeyId, k1: KeyId, k2: KeyId, k3: KeyId)
    requires a != x && y !in {a, x} && k0 != k1 && k2 !in {k0, k1} && k3 !in {k0, k1, k2}
    ensures var (es, fs) := (Twin(a, x, y, k0, k1, k2, true), Twin(a, x, y, k0, k1, k2, false));
      var v, w, e := RunAll(es), RunAll(fs), Overtake(PairDoc(a, x), a, x, y, k2, k3)[2];
      && MayRun(a, es) && MayRun(a, fs) && At(v, a).issued == At(w, a).issued && At(v, x) == At(w, x)
      && May(a, v, e) && May(a, w, e) && Counted(a, v, x) && Counted(a, w, x)
      && PassesOver(a, v, x, e.op) && !PassesOver(a, w, x, e.op)
  {
    var (es, fs) := (Twin(a, x, y, k0, k1, k2, true), Twin(a, x, y, k0, k1, k2, false));
    hide RunAll, MayRun, May, PassesOver, Counted, Twin, Pair;
    var e := Overtake(PairDoc(a, x), a, x, y, k2, k3)[2];
    TwinEnd(a, x, y, k0, k1, k2, k3, true);
    TwinEnd(a, x, y, k0, k1, k2, k3, false);
  }
}
