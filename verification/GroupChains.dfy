/** When a member has a chain of its own to send with, over every run of a node in one group. */
module GroupChains {
  import opened Prelude
  import opened Group
  import opened GroupRuns

  /**
   After a document is applied, by an update or by a welcome, a member has a chain of its own
   exactly when it had one before or the document removes somebody.
   */
  lemma ApplyLeavesChain(me: Me, s: Db, next: Doc, key: KeyId, t: Db)
    requires RecOk(me, s) && s.rec.Some? && ApplyMembership(me, s, s.rec.value, next, key) == Ok(t)
    requires next.admin == s.rec.value.admin && next.Genuine()
    ensures me.id in t.keys <==>
              me.id in next.members && (me.id in s.keys || exists p :: p in s.members && p !in next.members)
  {
    var rec := s.rec.value;
    PutDocOk(s, next, rec.admin, me.id !in next.members);
    var removed := Except(rec.doc.members, next.members);
    ExceptMeaning(rec.doc.members, next.members);
    if removed != [] {
      assert removed[0] in removed;
    }
  }

  /** A node taken back into a group, by either message, has its own chain exactly when somebody went. */
  lemma ReturnsWithChain(me: Me, n: Node, op: Op)
    requires Inv(me, n) && n.db.rec.Some? && n.db.rec.value.left && (op.Updated? || op.Welcomed?)
    requires var t := Call(me, n.db, op); t.Ok? && me.id in t.value.members
    ensures me.id in Call(me, n.db, op).value.keys <==> exists p :: p in n.db.members && p !in op.doc.members
  {
    var t := Call(me, n.db, op).value;
    ApplyLeavesChain(me, n.db, op.doc, op.key, t);
    PutDocOk(n.db, op.doc, n.db.rec.value.admin, false);
    assert me.id !in n.db.keys && me.id in op.doc.members;
  }

  /** By its membership history alone, the node has no chain of its own. */
  predicate Lost(me: Me, ops: seq<Op>) {
    ops == []
    || (var init := ops[..|ops| - 1];
        var n, m := Run(me, init).db, Run(me, ops).db;
        if m.rec == n.rec then Lost(me, init)
        else if me.id !in m.members then true
        else n.rec.Some? && Lost(me, init) && n.members <= m.members)
  }

  /** In every reachable state a node can send exactly while it is a member that has not lost its chain. */
  lemma {:induction false} CanSendExactly(me: Me, ops: seq<Op>)
    requires PossibleRun(me, ops)
    ensures var s := Run(me, ops).db;
      && (me.id in s.keys <==> !Lost(me, ops))
      && (SendText(me, s).Ok? <==> me.id in s.members && !Lost(me, ops))
  {
    if ops != [] {
      var init, op := ops[..|ops| - 1], ops[|ops| - 1];
      CanSendExactly(me, init);
      RunSafe(me, init);
      RunSafe(me, ops);
      OwnChainAfter(me, Run(me, init), op);
    }
  }

  /** What one operation does to having an own chain. */
  lemma OwnChainAfter(me: Me, n: Node, op: Op)
    requires Inv(me, n) && Possible(me, n, op)
    ensures var t := Step(me, n, op).db;
      me.id in t.keys <==>
        if t.rec == n.db.rec then me.id in n.db.keys
        else me.id in t.members && (n.db.rec.None? || me.id in n.db.keys || !(n.db.members <= t.members))
  {
    var s, r := n.db, Call(me, n.db, op);
    if r.Ok? {
      var t := r.value;
      CallKeeps(me, n, op, t);
      if op.Welcomed? || op.Updated? {
        ArrivedChain(me, s, op, t);
      } else if op.Adds? {
        AddShape(me, s, op.member, t);
      } else if op.Removes? {
        RemoveKeeps(me, n, op.member, op.key, t);
        RemoveRekeys(me, s, op.member, op.key, t);
      } else {
        OtherChain(me, n, op, t);
      }
      hide Call, Inv, Possible;
    }
  }

  lemma RemoveRekeys(me: Me, s: Db, member: Id, key: KeyId, t: Db)
    requires Remove(me, s, member, key) == Ok(t)
    ensures me.id in t.keys
  {
  }

  lemma OtherChain(me: Me, n: Node, op: Op, t: Db)
    requires Inv(me, n) && Possible(me, n, op) && Call(me, n.db, op) == Ok(t)
    requires op.Creates? || op.Speaks? || op.Keyed? || op.Flushes?
    ensures if op.Creates? then n.db.rec.None? && me.id in t.keys
            else t.rec == n.db.rec && (me.id in t.keys <==> me.id in n.db.keys)
  {
  }

  lemma ArrivedChain(me: Me, s: Db, op: Op, t: Db)
    requires RecOk(me, s) && (op.Welcomed? || op.Updated?) && Call(me, s, op) == Ok(t)
    ensures me.id in t.keys <==>
        if t.rec == s.rec then me.id in s.keys
        else me.id in t.members && (s.rec.None? || me.id in s.keys || !(s.members <= t.members))
  {
    if t != s {
      PutDocOk(s, op.doc, op.doc.admin, me.id !in op.doc.members);
      hide PutDoc;
      if s.rec.Some? {
        ApplyLeavesChain(me, s, op.doc, op.key, t);
      }
    }
  }

  lemma AddShape(me: Me, s: Db, member: Id, t: Db)
    requires RecOk(me, s) && Add(me, s, member) == Ok(t)
    ensures t.keys == s.keys && s.members <= t.members && s.rec.Some? && me.id in t.keys ==> me.id in t.members
  {
  }

  // ----- an active member that cannot send -----

  /** Taken in, left out and taken back beside the same members. */
  function Stranding(me: Me, other: Id, admin: PubKey, k1: KeyId, k2: KeyId, k3: KeyId): seq<Op> {
    [Welcomed(other, Doc(1, "", admin, [other, me.id], admin), [], k1),
     Updated(Doc(2, "", admin, [other], admin), k2),
     Welcomed(other, Doc(3, "", admin, [other, me.id], admin), [], k3)]
  }

  function TakenIn(me: Me, other: Id, admin: PubKey, k1: KeyId): Db {
    Db(Some(Rec(1, "", admin, Doc(1, "", admin, [other, me.id], admin), false)), {other, me.id},
       map[me.id := Dist(1, k1, 0)], [Item(other, KeyDist(Dist(1, k1, 0)))])
  }

  function LeftOut(me: Me, other: Id, admin: PubKey, k1: KeyId): Db {
    Db(Some(Rec(2, "", admin, Doc(2, "", admin, [other], admin), true)), {other},
       map[], [Item(other, KeyDist(Dist(1, k1, 0)))])
  }

  function TakenBack(me: Me, other: Id, admin: PubKey, k1: KeyId): Db {
    Db(Some(Rec(3, "", admin, Doc(3, "", admin, [other, me.id], admin), false)), {other, me.id},
       map[], [Item(other, KeyDist(Dist(1, k1, 0)))])
  }

  /** The lists that these documents lead to. */
  lemma ListsOfTwo(a: Id, b: Id)
    requires a != b
    ensures MemberRows([a, b]) == Some({a, b}) && MemberRows([a]) == Some({a})
    ensures Except([a, b], [a]) == [b] && Except([a], [a, b]) == [] && Except([b], [b]) == [] && Except([], [b]) == []
  {
    assert MemberRows([]) == Some({}) && Except([], [a]) == Except([], [a, b]) == Except([], [b]) == [];
    hide MemberRows, Except;
    assert [a, b] == [a] + [b] && [a] == [] + [a] && [b] == [] + [b];
    assert {} + {a} == {a} && {a} + {b} == {a, b};
    RowsUnfold([], a);
    RowsUnfold([a], b);
    ExceptUnfold([], a, [a]);
    ExceptUnfold([], a, [a, b]);
    ExceptUnfold([], b, [b]);
    ExceptUnfold([a], b, [a]);
  }

  lemma FanoutOfTwo(a: Id, b: Id, body: Body)
    requires a != b
    ensures Fanout([a, b], b, body) == [Item(a, body)]
  {
    assert [a, b] == [a] + [b] && [a] == [] + [a];
    FanoutUnfold([], a, b, body);
    FanoutUnfold([a], b, b, body);
  }

  lemma TakenInStep(me: Me, other: Id, admin: PubKey, k1: KeyId)
    requires other != me.id
    ensures Call(me, START.db, Welcomed(other, Doc(1, "", admin, [other, me.id], admin), [], k1))
         == Ok(TakenIn(me, other, admin, k1))
  {
    ListsOfTwo(other, me.id);
    FanoutOfTwo(other, me.id, KeyDist(Dist(1, k1, 0)));
    hide MemberRows, Fanout;
    assert TrustedKeys(map[], [], other, Doc(1, "", admin, [other, me.id], admin)) == map[];
  }

  lemma LeftOutStep(me: Me, other: Id, admin: PubKey, k1: KeyId, k2: KeyId)
    requires other != me.id
    ensures Call(me, TakenIn(me, other, admin, k1), Updated(Doc(2, "", admin, [other], admin), k2))
         == Ok(LeftOut(me, other, admin, k1))
  {
    ListsOfTwo(other, me.id);
    hide MemberRows, Except;
    assert map[me.id := Dist(1, k1, 0)] - SetOf([me.id]) == map[];
  }

  lemma TakenBackStep(me: Me, other: Id, admin: PubKey, k1: KeyId, k3: KeyId)
    requires other != me.id
    ensures Call(me, LeftOut(me, other, admin, k1), Welcomed(other, Doc(3, "", admin, [other, me.id], admin), [], k3))
         == Ok(TakenBack(me, other, admin, k1))
  {
    ListsOfTwo(other, me.id);
    hide MemberRows, Except;
    var none: map<Id, Dist> := map[];
    assert none - SetOf([]) == none;
  }

  /** A possible run after which a member that has not left has no chain to send with. */
  lemma Stranded(me: Me, other: Id, admin: PubKey, k1: KeyId, k2: KeyId, k3: KeyId)
    requires other != me.id && admin != me.admin && k1 != k2 && k1 != k3 && k2 != k3
    ensures var ops := Stranding(me, other, admin, k1, k2, k3);
      var s := Run(me, ops).db;
      && PossibleRun(me, ops) && s.rec.Some? && !s.rec.value.left && me.id in s.members
      && SendText(me, s) == Err(NoOwnKey)
  {
    var ops := Stranding(me, other, admin, k1, k2, k3);
    TakenInStep(me, other, admin, k1);
    LeftOutStep(me, other, admin, k1, k2);
    TakenBackStep(me, other, admin, k1, k3);
    hide Call, TakenIn, LeftOut, TakenBack;
    assert ops[..2] == [ops[0], ops[1]] && ops[..2][..1] == [ops[0]] && ops[..2][..1][..0] == [];
    assert Run(me, []) == START;
    assert Run(me, [ops[0]]).db == TakenIn(me, other, admin, k1) && Run(me, [ops[0]]).seen == {k1};
    assert Run(me, ops[..2]).db == LeftOut(me, other, admin, k1) && Run(me, ops[..2]).seen == {k1, k2};
    assert Run(me, ops).db == TakenBack(me, other, admin, k1);
    assert PossibleRun(me, []) && PossibleRun(me, [ops[0]]) && PossibleRun(me, ops[..2]);
  }

  // ----- a chain that comes back older -----

  /** p is left out, taken back and sends a chain of generation 1. */
  function Returning(me: Me, d: Doc, p: Id, k1: KeyId, k2: KeyId, c: KeyId): seq<Op> {
    [Updated(Doc(d.version + 1, d.name, d.admin, Except(d.members, [p]), d.signer), k1),
     Updated(Doc(d.version + 2, d.name, d.admin, d.members, d.signer), k2),
     Keyed(p, Dist(1, c, 0))]
  }

  /** An applied document keeps the chains of the other members in it and drops the rest. */
  lemma ApplyOthers(me: Me, n: Node, doc: Doc, key: KeyId)
    requires RecOk(me, n.db) && n.db.rec.Some? && doc.Valid() && doc.Genuine() && NoDup(doc.members)
    requires doc.admin == n.db.rec.value.admin && doc.version > n.db.rec.value.version
    ensures var m := Step(me, n, Updated(doc, key));
      && m.db.rec.Some? && m.db.rec.value.doc == doc && m.db.rec.value.version == doc.version
      && m.db.members == SetOf(doc.members) && m.seen == n.seen + {key}
      && forall q :: q != me.id ==> (q in m.db.keys <==> q in n.db.keys && q in doc.members)
  {
    var rec := n.db.rec.value;
    PutDocOk(n.db, doc, rec.admin, me.id !in doc.members);
    ExceptMeaning(rec.doc.members, doc.members);
    hide PutDoc, Except, NoDup;
  }

  lemma PossibleSnoc(me: Me, ops: seq<Op>, op: Op)
    requires PossibleRun(me, ops) && Possible(me, Run(me, ops), op)
    ensures PossibleRun(me, ops + [op]) && Run(me, ops + [op]) == Step(me, Run(me, ops), op)
  {
    assert (ops + [op])[..|ops|] == ops;
  }

  /** Two documents of the administrator, the second with the same members as before the first. */
  lemma LeftOutAndBack(me: Me, ops: seq<Op>, out: Doc, back: Doc, k1: KeyId, k2: KeyId)
    requires PossibleRun(me, ops) && Run(me, ops).db.rec.Some? && k1 != k2
    requires k1 !in Run(me, ops).seen && k2 !in Run(me, ops).seen
    requires var r := Run(me, ops).db.rec.value;
      && r.admin != me.admin && out.admin == back.admin == out.signer == back.signer == r.admin
      && out.Valid() && back.Valid() && NoDup(out.members) && back.members == r.doc.members
      && r.version < out.version < back.version
    ensures var two, three := ops + [Updated(out, k1)], ops + [Updated(out, k1)] + [Updated(back, k2)];
      && PossibleRun(me, three) && Run(me, three).db.members == SetOf(back.members) && Run(me, three).db.rec.Some?
      && (forall q :: q != me.id && q !in out.members ==> q !in Run(me, two).db.keys && q !in Run(me, three).db.keys)
  {
    var two := ops + [Updated(out, k1)];
    RunSafe(me, ops);
    ApplyOthers(me, Run(me, ops), out, k1);
    PossibleSnoc(me, ops, Updated(out, k1));
    RunSafe(me, two);
    hide Step, NoDup, PossibleRun, SeenOk, HoldersOk, IssuedOk;
    ApplyOthers(me, Run(me, two), back, k2);
    PossibleSnoc(me, two, Updated(back, k2));
  }

  /**
   From every reachable state of a group that another node administers: a member left out and taken
   back can have its chain stored again with an older generation.
   */
  lemma GenerationReturns(me: Me, ops: seq<Op>, p: Id, k1: KeyId, k2: KeyId, c: KeyId)
    requires PossibleRun(me, ops) && Run(me, ops).db.rec.Some? && p != me.id && k1 != k2
    requires k1 !in Run(me, ops).seen && k2 !in Run(me, ops).seen
    requires var r := Run(me, ops).db.rec.value;
      r.admin != me.admin && r.version + 2 < U64 && p in r.doc.members && me.id in r.doc.members
    ensures var all := ops + Returning(me, Run(me, ops).db.rec.value.doc, p, k1, k2, c);
      && PossibleRun(me, all) && p in Run(me, all).db.keys && Run(me, all).db.keys[p].generation == 1
      && p !in Run(me, all[..|ops| + 1]).db.keys
  {
    var n, d := Run(me, ops), Run(me, ops).db.rec.value.doc;
    var more := Returning(me, d, p, k1, k2, c);
    var two, three := ops + [more[0]], ops + [more[0]] + [more[1]];
    hide Step, Except, NoDup, Run, PossibleRun, SeenOk, HoldersOk, IssuedOk;
    RunSafe(me, ops);
    ExceptMeaning(d.members, [p]);
    assert me.id in more[0].doc.members;
    LeftOutAndBack(me, ops, more[0].doc, more[1].doc, k1, k2);
    hide Inv, RecOk;
    KeyedStored(me, Run(me, three), p, Dist(1, c, 0));
    PossibleSnoc(me, three, more[2]);
    var all := ops + more;
    assert all == three + [more[2]] && all[..|ops| + 1] == two;
  }

  lemma KeyedStored(me: Me, n: Node, p: Id, d: Dist)
    requires n.db.rec.Some? && p in n.db.members && p !in n.db.keys && d.generation > 0
    ensures var m := Step(me, n, Keyed(p, d)); p in m.db.keys && m.db.keys[p] == d
  {
  }
}
