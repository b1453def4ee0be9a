/** The transaction endpoints: the list query built from optional filters,
    the owner-scoped read, the validated create with its defaults, the
    partial-update merge and the owner-scoped delete. The collection is a
    sequence of valid records with distinct ids. */
module TransactionRoutes {
  import opened Base
  import opened Calendar
  import opened TransactionModel
  import Text

  /** The query object `{ user, type?, category?, date?: { $gte?, $lte? } }`. */
  datatype ListFilter = ListFilter(
    user: Id,
    kind: Option<Kind>,
    category: Option<string>,
    start: Option<Moment>,
    end: Option<Moment>)

  /** A record matches the query when it belongs to the user and meets every
      constraint present; a category name outside the enum matches nothing. */
  predicate Matches(f: ListFilter, t: Transaction) {
    t.user == f.user
    && (f.kind.Some? ==> t.kind == f.kind.value)
    && (f.category.Some? ==> CategoryName(t.category) == f.category.value)
    && (f.start.Some? ==> MomentLe(f.start.value, t.date))
    && (f.end.Some? ==> MomentLe(t.date, f.end.value))
  }

  function MatchesFn(f: ListFilter): Transaction -> bool {
    (t: Transaction) => Matches(f, t)
  }

  /** The list handler's query construction: 400 when type is not income or
      expense or a bound is not an ISO 8601 date; each field is set only when
      its parameter is truthy, so an empty category adds no constraint. */
  method BuildFilter(user: Id, kind: Param<Kind>, category: Option<string>, start: Param<Moment>, end: Param<Moment>)
    returns (r: Result<ListFilter, int>)
    ensures r.Err? <==> kind.Malformed? || start.Malformed? || end.Malformed?
    ensures r.Err? ==> r.error == 400
    ensures r.Ok? ==> r.value.user == user
    ensures r.Ok? ==> (r.value.kind.Some? <==> kind.Given?) && (kind.Given? ==> r.value.kind.value == kind.value)
    ensures r.Ok? ==> (r.value.category.Some? <==> category.Some? && category.value != "")
    ensures r.Ok? && r.value.category.Some? ==> r.value.category == category
    ensures r.Ok? ==> (r.value.start.Some? <==> start.Given?) && (start.Given? ==> r.value.start.value == start.value)
    ensures r.Ok? ==> (r.value.end.Some? <==> end.Given?) && (end.Given? ==> r.value.end.value == end.value)
  {
    if kind.Malformed? || start.Malformed? || end.Malformed? {
      return Err(400);
    }
    var f := ListFilter(user, None, None, None, None);
    if kind.Given? {
      f := f.(kind := Some(kind.value));
    }
    if category.Some? && category.value != "" {
      f := f.(category := category);
    }
    if start.Given? || end.Given? {
      if start.Given? {
        f := f.(start := Some(start.value));
      }
      if end.Given? {
        f := f.(end := Some(end.value));
      }
    }
    r := Ok(f);
  }

  /** `Transaction.find(filter).sort({ date: -1 })`. */
  function Query(rows: seq<Transaction>, f: ListFilter): seq<Transaction> {
    SortByDateDesc(Filter(rows, MatchesFn(f)))
  }

  /** The list holds exactly the matching records, newest first; with no
      optional constraint it holds every record of the user. */
  lemma QuerySpec(rows: seq<Transaction>, f: ListFilter)
    ensures NewestFirst(Query(rows, f))
    ensures forall t :: t in Query(rows, f) <==> t in rows && Matches(f, t)
    ensures multiset(Query(rows, f)) == multiset(Filter(rows, MatchesFn(f)))
    ensures f.kind.None? && f.category.None? && f.start.None? && f.end.None? ==>
      forall t :: t in Query(rows, f) <==> t in rows && t.user == f.user
  {
    SortByDateDescOrdered(Filter(rows, MatchesFn(f)));
    forall t ensures t in Query(rows, f) <==> t in rows && Matches(f, t) {
      FilterMembers(rows, MatchesFn(f), t);
      assert t in Query(rows, f) <==> t in multiset(Query(rows, f));
      assert t in Filter(rows, MatchesFn(f)) <==> t in multiset(Filter(rows, MatchesFn(f)));
    }
  }

  /** A reply: the status and the record it carries, if any. */
  datatype Reply = Reply(status: int, body: Option<Transaction>)

  /** The state after a request. */
  datatype Outcome = Outcome(reply: Reply, rows: seq<Transaction>, nextId: nat)

  /** Every stored record satisfies the schema, and ids are distinct and below
      the next fresh id. */
  predicate StoreValid(rows: seq<Transaction>, nextId: nat) {
    (forall i :: 0 <= i < |rows| ==> ValidTransaction(rows[i]) && rows[i].id < nextId)
    && forall i, j :: 0 <= i < j < |rows| ==> rows[i].id != rows[j].id
  }

  /** The record has this id and belongs to this user. */
  predicate Owned(id: Id, user: Id, t: Transaction) {
    t.id == id && t.user == user
  }

  function OwnedFn(id: Id, user: Id): Transaction -> bool {
    (t: Transaction) => Owned(id, user, t)
  }

  /** The owner-scoped lookup `findOne({ _id, user })`: the first record
      with that id and owner, or none. */
  function FindOwned(rows: seq<Transaction>, id: Id, user: Id): (r: Option<nat>)
    ensures r.Some? ==> r.value < |rows| && rows[r.value].id == id && rows[r.value].user == user
    ensures r.Some? ==> forall j :: 0 <= j < r.value ==> !(rows[j].id == id && rows[j].user == user)
    ensures r.None? <==> forall i :: 0 <= i < |rows| ==> !(rows[i].id == id && rows[i].user == user)
  {
    FirstIndex(rows, OwnedFn(id, user))
  }

  /** The POST body as sent. */
  datatype NewBody = NewBody(
    kind: Param<Kind>,
    amount: Param<real>,
    category: Option<string>,
    description: Option<string>,
    date: Param<Moment>)

  /** The POST validators: a type among income/expense, a number amount of
      at least 0, a non-empty category and an ISO 8601 date when sent. */
  predicate CreateRejected(q: NewBody) {
    !q.kind.Given? || !q.amount.Given? || q.amount.value < 0.0
    || q.category.None? || q.category.value == "" || q.date.Malformed?
  }

  /** The document handed to `Transaction.create`, with `description || ''`
      and `date || new Date()`. */
  function DraftOf(user: Id, q: NewBody, now: Moment): Draft
    requires !CreateRejected(q)
  {
    Draft(Some(user), Some(KindName(q.kind.value)), Some(q.amount.value), q.category,
      Some(q.description.GetOr("")), Some(if q.date.Given? then q.date.value else now))
  }

  /** POST /api/transactions: 400 on a rejected body, 500 when the schema
      rejects the document (a category outside the enum), else 201 with the
      new record appended. */
  function Create(rows: seq<Transaction>, nextId: nat, user: Id, q: NewBody, now: Moment): Outcome
    requires ValidMoment(now) && (q.date.Given? ==> ValidMoment(q.date.value))
  {
    if CreateRejected(q) then Outcome(Reply(400, None), rows, nextId)
    else
      match Validate(DraftOf(user, q, now), nextId, now)
      case Err(_) => Outcome(Reply(500, None), rows, nextId)
      case Ok(t) => Outcome(Reply(201, Some(t)), rows + [t], nextId + 1)
  }

  /** Creation adds exactly one valid record, carrying the sent fields, the
      trimmed description or '' and the sent date or now, or else changes
      nothing. */
  lemma CreateSpec(rows: seq<Transaction>, nextId: nat, user: Id, q: NewBody, now: Moment)
    requires StoreValid(rows, nextId)
    requires ValidMoment(now) && (q.date.Given? ==> ValidMoment(q.date.value))
    ensures var o := Create(rows, nextId, user, q, now);
      StoreValid(o.rows, o.nextId)
      && o.reply.status in {400, 500, 201}
      && (o.reply.status == 400 <==> CreateRejected(q))
      && (o.reply.status == 500 <==> !CreateRejected(q) && ParseCategory(q.category.value).None?)
      && (o.reply.status != 201 ==> o.rows == rows && o.nextId == nextId)
      && (o.reply.status == 201 ==>
            o.reply.body.Some? && o.rows == rows + [o.reply.body.value] && o.nextId == nextId + 1
            && var t := o.reply.body.value;
            t.id == nextId && t.user == user && t.kind == q.kind.value && t.amount == q.amount.value
            && CategoryName(t.category) == q.category.value
            && t.description == Text.Trim(q.description.GetOr(""))
            && t.date == (if q.date.Given? then q.date.value else now))
  {
    if !CreateRejected(q) {
      var d := DraftOf(user, q, now);
      assert ParseKind(KindName(q.kind.value)).Some? by {
        if q.kind.value == Income { assert KindName(Income) == "income"; }
      }
      assert Failures(d) == {} <==> ParseCategory(q.category.value).Some?;
      match Validate(d, nextId, now)
      case Err(_) =>
      case Ok(t) =>
        assert KindName(t.kind) == KindName(q.kind.value);
        AppendKeepsStore(rows, nextId, t);
    }
  }

  /** A creation keeps the collection valid. */
  lemma CreateKeepsStore(rows: seq<Transaction>, nextId: nat, user: Id, q: NewBody, now: Moment)
    requires StoreValid(rows, nextId)
    requires ValidMoment(now) && (q.date.Given? ==> ValidMoment(q.date.value))
    ensures StoreValid(Create(rows, nextId, user, q, now).rows, Create(rows, nextId, user, q, now).nextId)
  {
    if !CreateRejected(q) {
      match Validate(DraftOf(user, q, now), nextId, now)
      case Err(_) =>
      case Ok(t) => AppendKeepsStore(rows, nextId, t);
    }
  }

  /** Appending a valid record under the next fresh id keeps the collection
      valid. */
  lemma AppendKeepsStore(rows: seq<Transaction>, nextId: nat, t: Transaction)
    requires StoreValid(rows, nextId) && ValidTransaction(t) && t.id == nextId
    ensures StoreValid(rows + [t], nextId + 1)
  {
  }

  /** The PUT body as sent. */
  datatype Patch = Patch(
    kind: Param<Kind>,
    amount: Param<real>,
    category: Option<string>,
    description: Option<string>,
    date: Param<Moment>)

  /** The PUT validators: type, amount and date are checked when sent;
      category and description are not checked at all. */
  predicate PatchRejected(p: Patch) {
    p.kind.Malformed? || p.amount.Malformed? || (p.amount.Given? && p.amount.value < 0.0) || p.date.Malformed?
  }

  /** The assignments of the PUT handler followed by `save()`: type,
      category and date are replaced when truthy, amount and description
      whenever sent (so 0 and '' are applied); the description is trimmed on
      assignment; a category outside the enum makes the save fail. */
  function Merge(t: Transaction, p: Patch): Option<Transaction>
    requires !PatchRejected(p)
  {
    var category := if p.category.Some? && p.category.value != "" then ParseCategory(p.category.value) else Some(t.category);
    if category.None? then None
    else Some(t.(
      kind := if p.kind.Given? then p.kind.value else t.kind,
      amount := if p.amount.Given? then p.amount.value else t.amount,
      category := category.value,
      description := if p.description.Some? then Text.Trim(p.description.value) else t.description,
      date := if p.date.Given? then p.date.value else t.date))
  }

  /** The merge keeps the record valid and its id and owner, fails exactly on
      a non-empty category outside the enum, and changes only the fields it
      was sent; an empty patch changes nothing. */
  lemma MergeSpec(t: Transaction, p: Patch)
    requires ValidTransaction(t) && !PatchRejected(p) && (p.date.Given? ==> ValidMoment(p.date.value))
    ensures Merge(t, p).None? <==> p.category.Some? && p.category.value != "" && p.category.value !in CategoryNames
    ensures Merge(t, p).Some? ==> var u := Merge(t, p).value;
      ValidTransaction(u) && u.id == t.id && u.user == t.user
      && (p.kind.Absent? ==> u.kind == t.kind)
      && (p.amount.Absent? ==> u.amount == t.amount)
      && (p.category.None? || p.category.value == "" ==> u.category == t.category)
      && (p.category.Some? && p.category.value != "" ==> CategoryName(u.category) == p.category.value)
      && (p.description.None? ==> u.description == t.description)
      && (p.date.Absent? ==> u.date == t.date)
    ensures p == Patch(Absent, Absent, None, None, Absent) ==> Merge(t, p) == Some(t)
  {
    if p.description.Some? {
      TrimIdempotent(p.description.value);
    }
  }

  /** Applying the same patch twice is applying it once. */
  lemma MergeIdempotent(t: Transaction, p: Patch)
    requires ValidTransaction(t) && !PatchRejected(p) && Merge(t, p).Some?
    ensures Merge(Merge(t, p).value, p) == Merge(t, p)
  {
    if p.description.Some? {
      TrimIdempotent(p.description.value);
    }
    if p.category.Some? && p.category.value != "" {
      var c := ParseCategory(p.category.value);
      assert c.Some?;
    }
  }

  /** PUT /api/transactions/:id: 400 on a rejected body, 404 for a record the
      user does not own, 500 when the save fails, otherwise 200 with the
      merged record in place. */
  function Update(rows: seq<Transaction>, nextId: nat, id: Id, user: Id, p: Patch): Outcome {
    if PatchRejected(p) then Outcome(Reply(400, None), rows, nextId)
    else
      match FindOwned(rows, id, user)
      case None => Outcome(Reply(404, None), rows, nextId)
      case Some(i) =>
        match Merge(rows[i], p)
        case None => Outcome(Reply(500, None), rows, nextId)
        case Some(u) => Outcome(Reply(200, Some(u)), rows[i := u], nextId)
  }

  /** An update changes at most the one record it found, keeps the
      collection valid, and changes nothing when it fails. */
  lemma UpdateSpec(rows: seq<Transaction>, nextId: nat, id: Id, user: Id, p: Patch)
    requires StoreValid(rows, nextId) && (p.date.Given? ==> ValidMoment(p.date.value))
    ensures var o := Update(rows, nextId, id, user, p);
      StoreValid(o.rows, o.nextId) && o.nextId == nextId && |o.rows| == |rows|
      && (o.reply.status == 400 <==> PatchRejected(p))
      && o.reply.status in {400, 404, 500, 200}
      && (o.reply.status == 404 <==> !PatchRejected(p) && FindOwned(rows, id, user).None?)
      && (!PatchRejected(p) && FindOwned(rows, id, user).Some? ==>
            (o.reply.status == 200 <==> Merge(rows[FindOwned(rows, id, user).value], p).Some?))
      && (o.reply.status != 200 ==> o.rows == rows)
      && (forall i :: 0 <= i < |rows| && (rows[i].id != id || rows[i].user != user) ==> o.rows[i] == rows[i])
      && (o.reply.status == 200 ==>
            FindOwned(rows, id, user).Some?
            && o.reply.body == Merge(rows[FindOwned(rows, id, user).value], p)
            && o.rows[FindOwned(rows, id, user).value] == o.reply.body.value)
  {
    if !PatchRejected(p) && FindOwned(rows, id, user).Some? {
      var i := FindOwned(rows, id, user).value;
      MergeSpec(rows[i], p);
      if Merge(rows[i], p).Some? {
        var u := Merge(rows[i], p).value;
        Replace(rows, nextId, i, u);
        forall j | 0 <= j < |rows| && (rows[j].id != id || rows[j].user != user)
          ensures rows[i := u][j] == rows[j]
        {
          assert j != i;
        }
      }
    }
  }

  /** Replacing a record by a valid one with the same id keeps the
      collection valid. */
  lemma Replace(rows: seq<Transaction>, nextId: nat, i: nat, u: Transaction)
    requires StoreValid(rows, nextId) && i < |rows| && ValidTransaction(u) && u.id == rows[i].id
    ensures StoreValid(rows[i := u], nextId)
  {
    var r := rows[i := u];
    assert forall j :: 0 <= j < |r| ==> r[j].id == rows[j].id;
  }

  /** An update keeps the collection valid and the next id. */
  lemma UpdateKeepsStore(rows: seq<Transaction>, nextId: nat, id: Id, user: Id, p: Patch)
    requires StoreValid(rows, nextId) && (p.date.Given? ==> ValidMoment(p.date.value))
    ensures StoreValid(Update(rows, nextId, id, user, p).rows, nextId)
    ensures Update(rows, nextId, id, user, p).nextId == nextId
  {
    if !PatchRejected(p) && FindOwned(rows, id, user).Some? {
      var i := FindOwned(rows, id, user).value;
      if Merge(rows[i], p).Some? {
        MergeSpec(rows[i], p);
        Replace(rows, nextId, i, Merge(rows[i], p).value);
      }
    }
  }

  /** DELETE /api/transactions/:id: 404 unless the user owns the record,
      otherwise it is removed. */
  function Delete(rows: seq<Transaction>, nextId: nat, id: Id, user: Id): Outcome {
    match FindOwned(rows, id, user)
    case None => Outcome(Reply(404, None), rows, nextId)
    case Some(i) => Outcome(Reply(200, None), RemoveAt(rows, i), nextId)
  }

  /** The delete removes exactly the matched record and keeps the others in
      order, or changes nothing. */
  lemma DeleteSpec(rows: seq<Transaction>, nextId: nat, id: Id, user: Id)
    requires StoreValid(rows, nextId)
    ensures var o := Delete(rows, nextId, id, user);
      StoreValid(o.rows, o.nextId)
      && o.reply.status in {404, 200}
      && (o.reply.status == 404 <==> FindOwned(rows, id, user).None?)
      && (o.reply.status == 404 ==> o.rows == rows)
      && (o.reply.status == 200 ==>
            |o.rows| == |rows| - 1
            && multiset(o.rows) + multiset{rows[FindOwned(rows, id, user).value]} == multiset(rows)
            && forall i :: 0 <= i < |o.rows| ==> o.rows[i].id != id)
  {
    match FindOwned(rows, id, user)
    case None =>
    case Some(i) => RemoveKeepsStore(rows, nextId, i);
  }

  /** Removing a record keeps the collection valid, and no other record has
      its id. */
  lemma RemoveKeepsStore(rows: seq<Transaction>, nextId: nat, i: nat)
    requires StoreValid(rows, nextId) && i < |rows|
    ensures StoreValid(RemoveAt(rows, i), nextId)
    ensures forall j :: 0 <= j < |RemoveAt(rows, i)| ==> RemoveAt(rows, i)[j].id != rows[i].id
  {
    var r := RemoveAt(rows, i);
    forall a | 0 <= a < |r| ensures ValidTransaction(r[a]) && r[a].id < nextId {
      assert r[a] == rows[if a < i then a else a + 1];
    }
    RemoveKeepsIds(rows, i);
  }

  /** Removing a record keeps the ids distinct, and none of the others is
      the removed one's. */
  lemma RemoveKeepsIds(rows: seq<Transaction>, i: nat)
    requires i < |rows| && forall a, b :: 0 <= a < b < |rows| ==> rows[a].id != rows[b].id
    ensures forall a, b :: 0 <= a < b < |RemoveAt(rows, i)| ==> RemoveAt(rows, i)[a].id != RemoveAt(rows, i)[b].id
    ensures forall j :: 0 <= j < |RemoveAt(rows, i)| ==> RemoveAt(rows, i)[j].id != rows[i].id
  {
    var r := RemoveAt(rows, i);
    forall a | 0 <= a < |r| ensures r[a].id != rows[i].id {
      var a' := if a < i then a else a + 1;
      assert r[a] == rows[a'];
    }
    forall a, b | 0 <= a < b < |r| ensures r[a].id != r[b].id {
      var a' := if a < i then a else a + 1;
      var b' := if b < i then b else b + 1;
      assert r[a] == rows[a'] && r[b] == rows[b'];
    }
  }

  /** The transaction collection. */
  class TransactionStore {
    var rows: seq<Transaction>
    var nextId: nat

    predicate Valid()
      reads this
    {
      StoreValid(rows, nextId)
    }

    constructor ()
      ensures Valid() && rows == [] && nextId == 0
    {
      rows := [];
      nextId := 0;
    }

    /** GET /api/transactions. */
    method List(user: Id, kind: Param<Kind>, category: Option<string>, start: Param<Moment>, end: Param<Moment>)
      returns (r: Result<seq<Transaction>, int>)
      ensures r.Err? <==> kind.Malformed? || start.Malformed? || end.Malformed?
      ensures r.Err? ==> r.error == 400
      ensures r.Ok? ==> NewestFirst(r.value)
      ensures r.Ok? ==> forall t :: t in r.value <==>
        t in rows && t.user == user
        && (kind.Given? ==> t.kind == kind.value)
        && (category.Some? && category.value != "" ==> CategoryName(t.category) == category.value)
        && (start.Given? ==> MomentLe(start.value, t.date))
        && (end.Given? ==> MomentLe(t.date, end.value))
    {
      var f := BuildFilter(user, kind, category, start, end);
      if f.Err? {
        return Err(f.error);
      }
      QuerySpec(rows, f.value);
      r := Ok(Query(rows, f.value));
    }

    /** GET /api/transactions/:id. */
    method Get(id: Id, user: Id) returns (r: Reply)
      ensures r.status == 404 <==> FindOwned(rows, id, user).None?
      ensures r.status == 404 || r.status == 200
      ensures r.status == 404 ==> r.body.None?
      ensures r.status == 200 ==>
        (r.body.Some? && r.body.value in rows && r.body.value.id == id && r.body.value.user == user)
    {
      var found := FindOwned(rows, id, user);
      if found.None? {
        return Reply(404, None);
      }
      r := Reply(200, Some(rows[found.value]));
    }

    /** POST /api/transactions. */
    method Post(user: Id, q: NewBody, now: Moment) returns (r: Reply)
      requires Valid() && ValidMoment(now) && (q.date.Given? ==> ValidMoment(q.date.value))
      modifies this
      ensures Valid()
      ensures Outcome(r, rows, nextId) == Create(old(rows), old(nextId), user, q, now)
    {
      var o := Create(rows, nextId, user, q, now);
      CreateKeepsStore(rows, nextId, user, q, now);
      rows := o.rows;
      nextId := o.nextId;
      r := o.reply;
    }

    /** PUT /api/transactions/:id: the loaded record is merged with the
      patch and saved in its place. */
    method Put(id: Id, user: Id, p: Patch) returns (r: Reply)
      requires Valid() && (p.date.Given? ==> ValidMoment(p.date.value))
      modifies this
      ensures Valid()
      ensures Outcome(r, rows, nextId) == Update(old(rows), old(nextId), id, user, p)
    {
      var o := Update(rows, nextId, id, user, p);
      UpdateKeepsStore(rows, nextId, id, user, p);
      rows := o.rows;
      r := o.reply;
    }

    /** DELETE /api/transactions/:id. */
    method Remove(id: Id, user: Id) returns (r: Reply)
      requires Valid()
      modifies this
      ensures Valid()
      ensures Outcome(r, rows, nextId) == Delete(old(rows), old(nextId), id, user)
    {
      DeleteSpec(rows, nextId, id, user);
      var found := FindOwned(rows, id, user);
      if found.None? {
        return Reply(404, None);
      }
      rows := RemoveAt(rows, found.value);
      r := Reply(200, None);
    }
  }
}
