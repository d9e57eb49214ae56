/** The group manager: every call works on a copy of the store and commits or discards it. */
module GroupManager {
  import opened Prelude
  import Group

  type Db = Group.Db
  type Id = Group.Id
  type Doc = Group.Doc
  type Outcome = Result<Db, Group.Error>

  class Manager {
    const me: Group.Me
    var db: Db

    constructor (me: Group.Me, db: Db)
      ensures this.me == me && this.db == db
    {
      this.me := me;
      this.db := db;
    }

    ghost predicate Committed(before: Db, spec: Outcome, r: Result<(), Group.Error>)
      reads this
    {
      match spec
      case Err(e) => r == Err(e) && db == before
      case Ok(s) => r == Ok(()) && db == s
    }

    method Finish(tx: Outcome) returns (r: Result<(), Group.Error>)
      modifies this`db
      ensures Committed(old(db), tx, r)
    {
      match tx
      case Err(e) => r := Err(e);
      case Ok(s) =>
        db := s;
        r := Ok(());
    }

    /** The record, then the member table row by row; a repeated member violates its key. */
    method PutDoc(tx: Db, doc: Doc, admin: Group.PubKey, left: bool) returns (r: Outcome)
      ensures r == Group.PutDoc(tx, doc, admin, left)
    {
      var rows: set<Id> := {};
      for i := 0 to |doc.members|
        invariant Group.MemberRows(doc.members[..i]) == Some(rows)
      {
        assert doc.members[..i + 1][..i] == doc.members[..i];
        if doc.members[i] in rows {
          NoRows(doc.members, i + 1);
          return Err(Group.Constraint);
        }
        rows := rows + {doc.members[i]};
      }
      assert doc.members[..|doc.members|] == doc.members;
      r := Ok(tx.(rec := Some(Group.Rec(doc.version, doc.name, admin, doc, left)), members := rows));
    }

    method Queue(tx: Db, ms: seq<Id>, body: Group.Body) returns (t: Db)
      ensures t == tx.(queue := tx.queue + Group.Fanout(ms, me.id, body))
    {
      t := tx;
      assert tx.queue + [] == tx.queue;
      for i := 0 to |ms|
        invariant t == tx.(queue := tx.queue + Group.Fanout(ms[..i], me.id, body))
      {
        assert ms[..i + 1][..i] == ms[..i];
        if ms[i] != me.id {
          assert tx.queue + (Group.Fanout(ms[..i], me.id, body) + [Group.Item(ms[i], body)])
              == tx.queue + Group.Fanout(ms[..i], me.id, body) + [Group.Item(ms[i], body)];
          t := t.(queue := t.queue + [Group.Item(ms[i], body)]);
        }
      }
      assert ms[..|ms|] == ms;
    }

    method RekeyTx(tx: Db, ms: seq<Id>, key: Group.KeyId) returns (t: Db)
      ensures t == Group.Rekey(me, tx, ms, key)
    {
      var gen := 1;
      if me.id in tx.keys {
        gen := (tx.keys[me.id].generation + 1) % U32;
      }
      var own := Group.Dist(gen, key, 0);
      t := Queue(tx.(keys := tx.keys[me.id := own]), ms, Group.KeyDist(own));
    }

    method CollectDists(tx: Db, ms: seq<Id>, exclude: Id) returns (ds: seq<(Id, Group.Dist)>)
      ensures ds == Group.CollectDists(tx.keys, ms, exclude)
    {
      ds := [];
      for i := 0 to |ms|
        invariant ds == Group.CollectDists(tx.keys, ms[..i], exclude)
      {
        assert ms[..i + 1][..i] == ms[..i];
        if ms[i] != exclude && ms[i] in tx.keys {
          ds := ds + [(ms[i], tx.keys[ms[i]])];
        }
      }
      assert ms[..|ms|] == ms;
    }

    method Except(ms: seq<Id>, xs: seq<Id>) returns (r: seq<Id>)
      ensures r == Group.Except(ms, xs)
    {
      r := [];
      for i := 0 to |ms|
        invariant r == Group.Except(ms[..i], xs)
      {
        assert ms[..i + 1][..i] == ms[..i];
        if ms[i] !in xs {
          r := r + [ms[i]];
        }
      }
      assert ms[..|ms|] == ms;
    }

    method Create(name: string, key: Group.KeyId) returns (r: Result<(), Group.Error>)
      modifies this`db
      ensures Committed(old(db), Group.Create(me, old(db), name, key), r)
    {
      var doc := Group.Doc(1, name, me.admin, [me.id], me.admin);
      if !doc.Valid() {
        return Err(Group.Malformed);
      }
      var tx := PutDoc(db, doc, me.admin, false);
      if tx.Err? {
        return Err(tx.error);
      }
      db := tx.value.(keys := tx.value.keys[me.id := Group.Dist(1, key, 0)]);
      r := Ok(());
    }

    method Add(member: Id) returns (r: Result<(), Group.Error>)
      modifies this`db
      ensures Committed(old(db), Group.Add(me, old(db), member), r)
    {
      if db.rec.None? {
        return Err(Group.Unknown);
      }
      var rec := db.rec.value;
      if rec.left {
        return Err(Group.HasLeft);
      }
      if rec.admin != me.admin {
        return Err(Group.NotAdmin);
      }
      var prior := rec.doc;
      if member in prior.members {
        return Ok(());
      }
      if |prior.members| + 1 > Group.MAX_MEMBERS {
        return Err(Group.TooBig);
      }
      var next := Group.Doc((prior.version + 1) % U64, prior.name, prior.admin, prior.members + [member], me.admin);
      if !next.Valid() {
        return Err(Group.Malformed);
      }
      var put := PutDoc(db, next, rec.admin, rec.left);
      if put.Err? {
        return Err(put.error);
      }
      var tx := put.value;
      var dists := CollectDists(tx, next.members, member);
      tx := tx.(queue := tx.queue + [Group.Item(member, Group.Welcome(next, dists))]);
      tx := Queue(tx, prior.members, Group.Update(next));
      db := tx;
      r := Ok(());
    }

    method Remove(member: Id, key: Group.KeyId) returns (r: Result<(), Group.Error>)
      modifies this`db
      ensures Committed(old(db), Group.Remove(me, old(db), member, key), r)
    {
      if db.rec.None? {
        return Err(Group.Unknown);
      }
      var rec := db.rec.value;
      if rec.admin != me.admin {
        return Err(Group.NotAdmin);
      }
      var prior := rec.doc;
      if member !in prior.members || member == me.id {
        return Err(Group.NotMember);
      }
      var rest := Except(prior.members, [member]);
      var next := Group.Doc((prior.version + 1) % U64, prior.name, prior.admin, rest, me.admin);
      if !next.Valid() {
        return Err(Group.Malformed);
      }
      var put := PutDoc(db, next, rec.admin, rec.left);
      if put.Err? {
        return Err(put.error);
      }
      var tx := put.value.(keys := put.value.keys - {member});
      tx := Queue(tx, prior.members, Group.Update(next));
      tx := RekeyTx(tx, next.members, key);
      db := tx;
      r := Ok(());
    }

    method ApplyMembership(tx0: Db, rec: Group.Rec, next: Doc, key: Group.KeyId) returns (r: Outcome)
      ensures r == Group.ApplyMembership(me, tx0, rec, next, key)
    {
      if next.admin != rec.admin || !next.Genuine() {
        return Ok(tx0);
      }
      var left := me.id !in next.members;
      var put := PutDoc(tx0, next, rec.admin, left);
      if put.Err? {
        return put;
      }
      var tx := put.value;
      var removed := Except(rec.doc.members, next.members);
      var newcomers := Except(next.members, rec.doc.members);
      var added := Except(newcomers, [me.id]);
      for i := 0 to |removed|
        invariant tx == put.value.(keys := put.value.keys - Group.SetOf(removed[..i]))
      {
        assert Group.SetOf(removed[..i + 1]) == Group.SetOf(removed[..i]) + {removed[i]};
        tx := tx.(keys := tx.keys - {removed[i]});
      }
      assert removed[..|removed|] == removed;
      if |removed| > 0 && !left {
        tx := RekeyTx(tx, next.members, key);
      }
      if |added| > 0 && !left && |removed| == 0 {
        tx := DistributeSelfKey(tx, added);
      }
      r := Ok(tx);
    }

    method DistributeSelfKey(tx: Db, to: seq<Id>) returns (t: Db)
      ensures t == Group.DistributeSelfKey(me, tx, to)
    {
      t := tx;
      if me.id in tx.keys {
        var body := Group.KeyDist(tx.keys[me.id]);
        assert tx.queue + [] == tx.queue;
        for i := 0 to |to|
          invariant t == tx.(queue := tx.queue + Group.ToAll(to[..i], body))
        {
          assert to[..i + 1][..i] == to[..i];
          assert tx.queue + (Group.ToAll(to[..i], body) + [Group.Item(to[i], body)])
              == tx.queue + Group.ToAll(to[..i], body) + [Group.Item(to[i], body)];
          t := t.(queue := t.queue + [Group.Item(to[i], body)]);
        }
        assert to[..|to|] == to;
      }
    }

    method OnWelcome(from: Id, doc: Doc, ks: seq<(Id, Group.Dist)>, key: Group.KeyId)
      returns (r: Result<(), Group.Error>)
      modifies this`db
      ensures Committed(old(db), Group.OnWelcome(me, old(db), from, doc, ks, key), r)
    {
      if !doc.Valid() || |ks| > Group.MAX_MEMBERS || !doc.Genuine() || me.id !in doc.members {
        return Ok(());
      }
      if db.rec.Some? {
        if doc.version <= db.rec.value.version {
          return Ok(());
        }
        var applied := ApplyMembership(db, db.rec.value, doc, key);
        r := Finish(applied);
        return;
      }
      var put := PutDoc(db, doc, doc.admin, false);
      if put.Err? {
        return Err(put.error);
      }
      var tx := put.value;
      for i := 0 to |ks|
        invariant tx == put.value.(keys := Group.TrustedKeys(put.value.keys, ks[..i], from, doc))
      {
        assert ks[..i + 1][..i] == ks[..i];
        var (p, d) := ks[i];
        if p == from && p in doc.members {
          tx := tx.(keys := tx.keys[p := d]);
        }
      }
      assert ks[..|ks|] == ks;
      tx := RekeyTx(tx, doc.members, key);
      db := tx;
      r := Ok(());
    }

    method OnUpdate(doc: Doc, key: Group.KeyId) returns (r: Result<(), Group.Error>)
      modifies this`db
      ensures Committed(old(db), Group.OnUpdate(me, old(db), doc, key), r)
    {
      if !doc.Valid() {
        return Ok(());
      }
      if db.rec.None? {
        return Err(Group.Unready);
      }
      if doc.version <= db.rec.value.version {
        return Ok(());
      }
      var applied := ApplyMembership(db, db.rec.value, doc, key);
      r := Finish(applied);
    }

    method OnKey(from: Id, dist: Group.Dist) returns (r: Result<(), Group.Error>)
      modifies this`db
      ensures Committed(old(db), Group.OnKey(old(db), from, dist), r)
    {
      if dist.generation == 0 {
        return Ok(());
      }
      if db.rec.None? || from !in db.members {
        return Err(Group.Unready);
      }
      if from in db.keys && dist.generation < db.keys[from].generation {
        return Ok(());
      }
      db := db.(keys := db.keys[from := dist]);
      r := Ok(());
    }
  }

  /** A repeated member early in the list spoils the whole list. */
  lemma {:induction false} NoRows(ms: seq<Id>, i: nat)
    requires i <= |ms| && Group.MemberRows(ms[..i]).None?
    ensures Group.MemberRows(ms).None?
  {
    if i == |ms| {
      assert ms[..i] == ms;
    } else {
      assert ms[..|ms| - 1][..i] == ms[..i];
      NoRows(ms[..|ms| - 1], i);
    }
  }
}
