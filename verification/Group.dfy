/**
 One group as one node keeps it: the record with its membership document, the member table, the
 sender keys and the queue of sealed messages. Signatures and keys are symbolic.
 */
module Group {
  import opened Prelude

  const MAX_MEMBERS: nat := 128
  const MAX_NAME: nat := 64

  type Id = nat
  type PubKey = nat
  type KeyId = nat

  /** A membership document; signer is the key that signed all of it. */
  datatype Doc = Doc(version: nat, name: string, admin: PubKey, members: seq<Id>, signer: PubKey) {
    predicate Genuine() {
      signer == admin
    }

    predicate Valid() {
      1 <= version < U64 && 0 < |members| <= MAX_MEMBERS && |name| <= MAX_NAME
    }
  }

  /** A point of a sender chain. */
  datatype Dist = Dist(generation: nat, key: KeyId, n: nat)

  datatype Body =
    | Welcome(doc: Doc, keys: seq<(Id, Dist)>)
    | Update(doc: Doc)
    | KeyDist(dist: Dist)

  datatype Item = Item(to: Id, body: Body)

  datatype Rec = Rec(version: nat, name: string, admin: PubKey, doc: Doc, left: bool)

  /** keys holds the node's own chain and what it has of the others'. */
  datatype Db = Db(rec: Option<Rec>, members: set<Id>, keys: map<Id, Dist>, queue: seq<Item>)

  datatype Me = Me(id: Id, admin: PubKey)

  /** Unready: the group or the sender is not known yet, the message is to be delivered again. */
  datatype Error = Unknown | HasLeft | NotAdmin | NotMember | TooBig | Malformed | Constraint | Unready | NoOwnKey

  // ----- parts of the transactions -----

  /** The rows of the member table, unless two would have one key. */
  function MemberRows(ms: seq<Id>): Option<set<Id>> {
    if ms == [] then Some({})
    else
      match MemberRows(ms[..|ms| - 1])
      case None => None
      case Some(rows) => if ms[|ms| - 1] in rows then None else Some(rows + {ms[|ms| - 1]})
  }

  function Fanout(ms: seq<Id>, self: Id, body: Body): seq<Item> {
    if ms == [] then []
    else
      var rest := Fanout(ms[..|ms| - 1], self, body);
      if ms[|ms| - 1] == self then rest else rest + [Item(ms[|ms| - 1], body)]
  }

  function CollectDists(keys: map<Id, Dist>, ms: seq<Id>, exclude: Id): seq<(Id, Dist)> {
    if ms == [] then []
    else
      var p := ms[|ms| - 1];
      var rest := CollectDists(keys, ms[..|ms| - 1], exclude);
      if p == exclude || p !in keys then rest else rest + [(p, keys[p])]
  }

  /** The elements of ms outside xs, in order. */
  function Except(ms: seq<Id>, xs: seq<Id>): seq<Id> {
    if ms == [] then []
    else
      var rest := Except(ms[..|ms| - 1], xs);
      if ms[|ms| - 1] in xs then rest else rest + [ms[|ms| - 1]]
  }

  /** The record, member table and document of doc. */
  function PutDoc(s: Db, doc: Doc, admin: PubKey, left: bool): Result<Db, Error> {
    match MemberRows(doc.members)
    case None => Err(Constraint)
    case Some(rows) => Ok(s.(rec := Some(Rec(doc.version, doc.name, admin, doc, left)), members := rows))
  }

  function Rekey(me: Me, s: Db, ms: seq<Id>, key: KeyId): Db {
    var gen := if me.id in s.keys then (s.keys[me.id].generation + 1) % U32 else 1;
    var own := Dist(gen, key, 0);
    s.(keys := s.keys[me.id := own], queue := s.queue + Fanout(ms, me.id, KeyDist(own)))
  }

  // ----- what the user does -----

  /** key: the entropy of the new chain. The group id is fresh. */
  function Create(me: Me, s: Db, name: string, key: KeyId): Result<Db, Error> {
    var doc := Doc(1, name, me.admin, [me.id], me.admin);
    if !doc.Valid() then Err(Malformed)
    else
      match PutDoc(s, doc, me.admin, false)
      case Err(e) => Err(e)
      case Ok(t) => Ok(t.(keys := t.keys[me.id := Dist(1, key, 0)]))
  }

  function Add(me: Me, s: Db, member: Id): Result<Db, Error> {
    match s.rec
    case None => Err(Unknown)
    case Some(rec) =>
      if rec.left then Err(HasLeft)
      else if rec.admin != me.admin then Err(NotAdmin)
      else if member in rec.doc.members then Ok(s)
      else if |rec.doc.members| + 1 > MAX_MEMBERS then Err(TooBig)
      else
        var next := Doc((rec.doc.version + 1) % U64, rec.doc.name, rec.doc.admin, rec.doc.members + [member], me.admin);
        if !next.Valid() then Err(Malformed)
        else
          match PutDoc(s, next, rec.admin, rec.left)
          case Err(e) => Err(e)
          case Ok(t) =>
            Ok(t.(queue := t.queue
                           + [Item(member, Welcome(next, CollectDists(t.keys, next.members, member)))]
                           + Fanout(rec.doc.members, me.id, Update(next))))
  }

  function Remove(me: Me, s: Db, member: Id, key: KeyId): Result<Db, Error> {
    match s.rec
    case None => Err(Unknown)
    case Some(rec) =>
      if rec.admin != me.admin then Err(NotAdmin)
      else if member !in rec.doc.members || member == me.id then Err(NotMember)
      else
        var next := Doc((rec.doc.version + 1) % U64, rec.doc.name, rec.doc.admin,
                        Except(rec.doc.members, [member]), me.admin);
        if !next.Valid() then Err(Malformed)
        else
          match PutDoc(s, next, rec.admin, rec.left)
          case Err(e) => Err(e)
          case Ok(t) =>
            var u := t.(keys := t.keys - {member}, queue := t.queue + Fanout(rec.doc.members, me.id, Update(next)));
            Ok(Rekey(me, u, next.members, key))
  }

  /** A text goes out under the next point of the own chain, to the audience. */
  function SendText(me: Me, s: Db): Result<(Db, set<Id>), Error> {
    match s.rec
    case None => Err(Unknown)
    case Some(rec) =>
      if rec.left then Err(HasLeft)
      else if me.id !in s.keys then Err(NoOwnKey)
      else
        var own := s.keys[me.id];
        Ok((s.(keys := s.keys[me.id := own.(n := (own.n + 1) % U32)]), s.members - {me.id}))
  }

  // ----- what arrives -----

  /** The stored chain points after a welcome: of the keys in it only the sender's own. */
  function TrustedKeys(keys: map<Id, Dist>, ks: seq<(Id, Dist)>, from: Id, doc: Doc): map<Id, Dist> {
    if ks == [] then keys
    else
      var (p, d) := ks[|ks| - 1];
      var rest := TrustedKeys(keys, ks[..|ks| - 1], from, doc);
      if p != from || p !in doc.members then rest else rest[p := d]
  }

  function OnWelcome(me: Me, s: Db, from: Id, doc: Doc, ks: seq<(Id, Dist)>, key: KeyId): Result<Db, Error> {
    if !doc.Valid() || |ks| > MAX_MEMBERS then Ok(s)
    else if !doc.Genuine() || me.id !in doc.members then Ok(s)
    else
      match s.rec
      case Some(rec) =>
        if doc.version <= rec.version then Ok(s) else ApplyMembership(me, s, rec, doc, key)
      case None =>
        match PutDoc(s, doc, doc.admin, false)
        case Err(e) => Err(e)
        case Ok(t) => Ok(Rekey(me, t.(keys := TrustedKeys(t.keys, ks, from, doc)), doc.members, key))
  }

  function OnUpdate(me: Me, s: Db, doc: Doc, key: KeyId): Result<Db, Error> {
    if !doc.Valid() then Ok(s)
    else
      match s.rec
      case None => Err(Unready)
      case Some(rec) =>
        if doc.version <= rec.version then Ok(s) else ApplyMembership(me, s, rec, doc, key)
  }

  function ApplyMembership(me: Me, s: Db, rec: Rec, next: Doc, key: KeyId): Result<Db, Error> {
    if next.admin != rec.admin || !next.Genuine() then Ok(s)
    else
      var left := me.id !in next.members;
      match PutDoc(s, next, rec.admin, left)
      case Err(e) => Err(e)
      case Ok(t) =>
        var removed := Except(rec.doc.members, next.members);
        var added := Except(Except(next.members, rec.doc.members), [me.id]);
        var u := t.(keys := t.keys - SetOf(removed));
        if removed != [] && !left then Ok(Rekey(me, u, next.members, key))
        else if added != [] && !left && removed == [] then Ok(DistributeSelfKey(me, u, added))
        else Ok(u)
  }

  function SetOf(ms: seq<Id>): set<Id> {
    set p | p in ms
  }

  function DistributeSelfKey(me: Me, s: Db, to: seq<Id>): Db
  {
    if me.id !in s.keys then s
    else s.(queue := s.queue + ToAll(to, KeyDist(s.keys[me.id])))
  }

  function ToAll(ms: seq<Id>, body: Body): seq<Item> {
    if ms == [] then [] else ToAll(ms[..|ms| - 1], body) + [Item(ms[|ms| - 1], body)]
  }

  function OnKey(s: Db, from: Id, dist: Dist): Result<Db, Error> {
    if dist.generation == 0 then Ok(s)
    else if s.rec.None? || from !in s.members then Err(Unready)
    else if from in s.keys && dist.generation < s.keys[from].generation then Ok(s)
    else Ok(s.(keys := s.keys[from := dist]))
  }

  // ----- what the parts mean -----

  lemma {:induction false} MemberRowsMeaning(ms: seq<Id>)
    ensures MemberRows(ms).Some? <==> NoDup(ms)
    ensures MemberRows(ms).Some? ==> MemberRows(ms).value == SetOf(ms)
  {
    if ms != [] {
      var init, last := ms[..|ms| - 1], ms[|ms| - 1];
      MemberRowsMeaning(init);
      assert ms == init + [last];
      assert SetOf(ms) == SetOf(init) + {last};
      NoDupSnoc(init, last);
    }
  }

  lemma {:induction false} FanoutMeaning(ms: seq<Id>, self: Id, body: Body)
    ensures forall it :: it in Fanout(ms, self, body) <==> it.body == body && it.to in ms && it.to != self
  {
    if ms != [] {
      FanoutMeaning(ms[..|ms| - 1], self, body);
      assert ms == ms[..|ms| - 1] + [ms[|ms| - 1]];
    }
  }

  lemma {:induction false} ToAllMeaning(ms: seq<Id>, body: Body)
    ensures forall it :: it in ToAll(ms, body) <==> it.body == body && it.to in ms
  {
    if ms != [] {
      ToAllMeaning(ms[..|ms| - 1], body);
      assert ms == ms[..|ms| - 1] + [ms[|ms| - 1]];
    }
  }

  lemma {:induction false} CollectDistsMeaning(keys: map<Id, Dist>, ms: seq<Id>, exclude: Id)
    ensures forall e :: (e in CollectDists(keys, ms, exclude)
                         <==> e.0 in ms && e.0 != exclude && e.0 in keys && e.1 == keys[e.0])
  {
    if ms != [] {
      CollectDistsMeaning(keys, ms[..|ms| - 1], exclude);
      assert ms == ms[..|ms| - 1] + [ms[|ms| - 1]];
    }
  }

  lemma {:induction false} ExceptMeaning(ms: seq<Id>, xs: seq<Id>)
    ensures forall p :: p in Except(ms, xs) <==> p in ms && p !in xs
    ensures NoDup(ms) ==> NoDup(Except(ms, xs))
    ensures |Except(ms, xs)| <= |ms|
  {
    if ms != [] {
      var init, last := ms[..|ms| - 1], ms[|ms| - 1];
      ExceptMeaning(init, xs);
      assert ms == init + [last];
      NoDupSnoc(init, last);
      NoDupSnoc(Except(init, xs), last);
    }
  }

  lemma {:induction false} TrustedKeysMeaning(keys: map<Id, Dist>, ks: seq<(Id, Dist)>, from: Id, doc: Doc)
    ensures var t := TrustedKeys(keys, ks, from, doc);
      && (forall p :: p != from ==> (p in t <==> p in keys) && (p in keys ==> t[p] == keys[p]))
      && (from in t && from !in keys ==> from in doc.members)
      && (from in t ==> (from in keys && t[from] == keys[from]) || (from, t[from]) in ks)
  {
    if ks != [] {
      TrustedKeysMeaning(keys, ks[..|ks| - 1], from, doc);
      var init, last := ks[..|ks| - 1], ks[|ks| - 1];
      assert last == (last.0, last.1) && last in ks;
      assert forall e :: e in init ==> e in ks;
    }
  }

  // ----- lists with one more element -----

  lemma RowsUnfold(ms: seq<Id>, x: Id)
    requires MemberRows(ms).Some? && x !in MemberRows(ms).value
    ensures MemberRows(ms + [x]) == Some(MemberRows(ms).value + {x})
  {
    assert (ms + [x])[..|ms|] == ms;
  }

  lemma ExceptUnfold(ms: seq<Id>, x: Id, xs: seq<Id>)
    ensures Except(ms + [x], xs) == if x in xs then Except(ms, xs) else Except(ms, xs) + [x]
  {
    assert (ms + [x])[..|ms|] == ms;
  }

  lemma FanoutUnfold(ms: seq<Id>, x: Id, self: Id, body: Body)
    ensures Fanout(ms + [x], self, body)
         == if x == self then Fanout(ms, self, body) else Fanout(ms, self, body) + [Item(x, body)]
  {
    assert (ms + [x])[..|ms|] == ms;
  }

  lemma CollectUnfold(keys: map<Id, Dist>, ms: seq<Id>, x: Id, exclude: Id)
    ensures CollectDists(keys, ms + [x], exclude)
         == if x == exclude || x !in keys then CollectDists(keys, ms, exclude)
            else CollectDists(keys, ms, exclude) + [(x, keys[x])]
  {
    assert (ms + [x])[..|ms|] == ms;
  }
}
