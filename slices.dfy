/** The client list stores: transactions, budgets, savings goals and
    investment goals. Each store holds a list of records, a loading flag and
    the last error; each reducer updates its store in place. */
module Slices {
  import opened Base

  type Id = string

  /** A record as a client list holds it: its `_id`, when it has one, and
      the rest of the record, which no reducer looks at. */
  datatype Doc<P> = Doc(id: Option<Id>, body: P)

  /** `findIndex(d => d._id === id)` as a value: the first position holding
      the id, if any. */
  function FirstMatch<P>(s: seq<Doc<P>>, id: Option<Id>): (r: Option<nat>)
    ensures r.Some? ==> r.value < |s| && s[r.value].id == id
    ensures r.Some? ==> forall j :: 0 <= j < r.value ==> s[j].id != id
    ensures r.None? ==> forall j :: 0 <= j < |s| ==> s[j].id != id
    decreases |s|
  {
    if |s| == 0 then None
    else if s[0].id == id then Some(0)
    else
      match FirstMatch(s[1..], id)
      case None => None
      case Some(i) => Some(i + 1)
  }

  /** `findIndex`: the first index holding the id, or -1. */
  method FindIndex<P>(s: seq<Doc<P>>, id: Option<Id>) returns (index: int)
    ensures -1 <= index < |s|
    ensures index == -1 <==> forall j :: 0 <= j < |s| ==> s[j].id != id
    ensures index >= 0 ==> s[index].id == id && forall j :: 0 <= j < index ==> s[j].id != id
    ensures index >= 0 <==> FirstMatch(s, id) == Some(index)
  {
    index := 0;
    while index < |s| && s[index].id != id
      invariant 0 <= index <= |s|
      invariant forall j :: 0 <= j < index ==> s[j].id != id
    {
      index := index + 1;
    }
    if index == |s| {
      index := -1;
    }
  }

  /** The update reducers: the first record with d's id is replaced by d. */
  function ReplaceFirst<P>(s: seq<Doc<P>>, d: Doc<P>): seq<Doc<P>> {
    match FirstMatch(s, d.id)
    case None => s
    case Some(i) => s[i := d]
  }

  /** Without a record holding d's id the list is unchanged; otherwise only
      the first such record is replaced, and later duplicates stay. */
  lemma ReplaceFirstSpec<P>(s: seq<Doc<P>>, d: Doc<P>)
    ensures |ReplaceFirst(s, d)| == |s|
    ensures (forall j :: 0 <= j < |s| ==> s[j].id != d.id) ==> ReplaceFirst(s, d) == s
    ensures forall i :: 0 <= i < |s| && s[i].id == d.id ==>
      exists k :: 0 <= k <= i && s[k].id == d.id && ReplaceFirst(s, d) == s[k := d]
  {
    match FirstMatch(s, d.id)
    case None =>
    case Some(k) =>
      forall i | 0 <= i < |s| && s[i].id == d.id
        ensures exists k :: 0 <= k <= i && s[k].id == d.id && ReplaceFirst(s, d) == s[k := d]
      {
        assert 0 <= k <= i && s[k].id == d.id && ReplaceFirst(s, d) == s[k := d];
      }
  }

  /** The ids held, position by position. */
  function Ids<P>(s: seq<Doc<P>>): (r: seq<Option<Id>>)
    ensures |r| == |s| && forall i :: 0 <= i < |s| ==> r[i] == s[i].id
  {
    seq(|s|, i requires 0 <= i < |s| => s[i].id)
  }

  /** An update never changes which ids the list holds, and repeating it
      changes nothing more. */
  lemma ReplaceFirstKeepsIds<P>(s: seq<Doc<P>>, d: Doc<P>)
    ensures Ids(ReplaceFirst(s, d)) == Ids(s)
    ensures ReplaceFirst(ReplaceFirst(s, d), d) == ReplaceFirst(s, d)
  {
    match FirstMatch(s, d.id)
    case None =>
    case Some(k) =>
      var r := s[k := d];
      assert Ids(r) == Ids(s);
      assert forall j :: 0 <= j < k ==> r[j].id != d.id;
      assert FirstMatch(r, d.id) == Some(k) by {
        var m := FirstMatch(r, d.id);
        assert m.Some? by { assert r[k].id == d.id; }
      }
      assert r[k := d] == r;
  }

  predicate HasId<P>(id: Id, x: Doc<P>) { x.id == Some(id) }

  predicate LacksId<P>(id: Id, x: Doc<P>) { x.id != Some(id) }

  function LacksIdFn<P>(id: Id): Doc<P> -> bool { (x: Doc<P>) => LacksId(id, x) }

  /** The delete reducers: `filter(d => d._id !== id)`. */
  function RemoveAll<P>(s: seq<Doc<P>>, id: Id): seq<Doc<P>> {
    Filter(s, LacksIdFn(id))
  }

  /** How many records hold the id. */
  function CountId<P>(s: seq<Doc<P>>, id: Id): (n: nat)
    ensures n <= |s|
    ensures n == 0 <==> forall j :: 0 <= j < |s| ==> !HasId(id, s[j])
    decreases |s|
  {
    if |s| == 0 then 0
    else CountId(s[..|s| - 1], id) + (if HasId(id, s[|s| - 1]) then 1 else 0)
  }

  /** A delete removes every record holding the id and nothing else, keeping
      the order of the rest. */
  lemma {:induction false} RemoveAllSpec<P>(s: seq<Doc<P>>, id: Id)
    ensures forall j :: 0 <= j < |RemoveAll(s, id)| ==> !HasId(id, RemoveAll(s, id)[j])
    ensures forall x :: x in RemoveAll(s, id) <==> x in s && !HasId(id, x)
    ensures |RemoveAll(s, id)| == |s| - CountId(s, id)
    ensures IsSubsequence(RemoveAll(s, id), s)
    decreases |s|
  {
    forall x ensures x in RemoveAll(s, id) <==> x in s && !HasId(id, x) {
      FilterMembers(s, LacksIdFn(id), x);
    }
    FilterIsSubsequence(s, LacksIdFn(id));
    if |s| > 0 {
      RemoveAllSpec(s[..|s| - 1], id);
    }
  }

  /** Deleting an id that no record holds changes nothing, and deleting
      twice is deleting once. */
  lemma RemoveAllIdempotent<P>(s: seq<Doc<P>>, id: Id)
    ensures CountId(s, id) == 0 ==> RemoveAll(s, id) == s
    ensures RemoveAll(RemoveAll(s, id), id) == RemoveAll(s, id)
  {
    if CountId(s, id) == 0 {
      FilterAll(s, LacksIdFn(id));
    }
    FilterIdempotent(s, LacksIdFn<P>(id));
  }

  /** The budget add reducer: the payload is pushed only when it is present
      and carries a non-empty `_id`. */
  function PushIdentified<P>(s: seq<Doc<P>>, payload: Option<Doc<P>>): seq<Doc<P>> {
    if payload.Some? && payload.value.id.Some? && payload.value.id.value != "" then s + [payload.value]
    else s
  }

  /** The push never looks for an existing record: a payload whose id is
      already listed (an upsert answered with the stored budget) leaves one
      more record with that id. */
  lemma {:induction false} PushIdentifiedCounts<P>(s: seq<Doc<P>>, payload: Option<Doc<P>>, id: Id)
    requires id != ""
    ensures payload == None ==> PushIdentified(s, payload) == s
    ensures payload.Some? && HasId(id, payload.value) ==>
      CountId(PushIdentified(s, payload), id) == CountId(s, id) + 1
    ensures payload.Some? && HasId(id, payload.value) && CountId(s, id) > 0 ==>
      CountId(PushIdentified(s, payload), id) >= 2
  {
    if payload.Some? && HasId(id, payload.value) {
      var r := s + [payload.value];
      assert r[..|r| - 1] == s;
    }
  }

  /** The transaction list store. */
  class TransactionSlice<P, E> {
    var transactions: seq<Doc<P>>
    var loading: bool
    var error: Option<E>

    constructor()
      ensures transactions == [] && !loading && error == None
    {
      transactions := [];
      loading := false;
      error := None;
    }

    /** `clearError`: only the error is reset. */
    method ClearError()
      modifies this
      ensures error == None
      ensures transactions == old(transactions) && loading == old(loading)
    {
      error := None;
    }

    method FetchPending()
      modifies this
      ensures loading && error == None && transactions == old(transactions)
    {
      loading := true;
      error := None;
    }

    method FetchFulfilled(payload: seq<Doc<P>>)
      modifies this
      ensures !loading && error == None && transactions == payload
    {
      loading := false;
      transactions := payload;
      error := None;
    }

    method FetchRejected(payload: Option<E>)
      modifies this
      ensures !loading && error == payload && transactions == old(transactions)
    {
      loading := false;
      error := payload;
    }

    /** `unshift`: the new record goes first and the others move up by one. */
    method AddFulfilled(d: Doc<P>)
      modifies this
      ensures transactions == [d] + old(transactions)
      ensures |transactions| == |old(transactions)| + 1
      ensures forall k :: 0 <= k < |old(transactions)| ==> transactions[k + 1] == old(transactions)[k]
      ensures loading == old(loading) && error == old(error)
    {
      transactions := [d] + transactions;
    }

    method UpdateFulfilled(d: Doc<P>)
      modifies this
      ensures transactions == ReplaceFirst(old(transactions), d)
      ensures loading == old(loading) && error == old(error)
    {
      var index := FindIndex(transactions, d.id);
      if index != -1 {
        transactions := transactions[index := d];
      }
    }

    method DeleteFulfilled(id: Id)
      modifies this
      ensures transactions == RemoveAll(old(transactions), id)
      ensures loading == old(loading) && error == old(error)
    {
      transactions := RemoveAll(transactions, id);
    }
  }

  /** The budget list store. Unlike the others, a pending fetch keeps the
      previous error, and adds go through pending/rejected too. */
  class BudgetSlice<P, E> {
    var budgets: seq<Doc<P>>
    var loading: bool
    var error: Option<E>

    constructor()
      ensures budgets == [] && !loading && error == None
    {
      budgets := [];
      loading := false;
      error := None;
    }

    method FetchPending()
      modifies this
      ensures loading && error == old(error) && budgets == old(budgets)
    {
      loading := true;
    }

    method FetchFulfilled(payload: seq<Doc<P>>)
      modifies this
      ensures !loading && budgets == payload && error == old(error)
    {
      loading := false;
      budgets := payload;
    }

    method FetchRejected(payload: Option<E>)
      modifies this
      ensures !loading && error == payload && budgets == old(budgets)
    {
      loading := false;
      error := payload;
    }

    method AddPending()
      modifies this
      ensures loading && error == old(error) && budgets == old(budgets)
    {
      loading := true;
    }

    method AddFulfilled(payload: Option<Doc<P>>)
      modifies this
      ensures !loading && error == old(error)
      ensures budgets == PushIdentified(old(budgets), payload)
    {
      loading := false;
      if payload.Some? && payload.value.id.Some? && payload.value.id.value != "" {
        budgets := budgets + [payload.value];
      }
    }

    method AddRejected(payload: Option<E>)
      modifies this
      ensures !loading && error == payload && budgets == old(budgets)
    {
      loading := false;
      error := payload;
    }

    method UpdateFulfilled(d: Doc<P>)
      modifies this
      ensures budgets == ReplaceFirst(old(budgets), d)
      ensures loading == old(loading) && error == old(error)
    {
      var index := FindIndex(budgets, d.id);
      if index != -1 {
        budgets := budgets[index := d];
      }
    }

    /** The rejected update and delete only record the error. */
    method UpdateOrDeleteRejected(payload: Option<E>)
      modifies this
      ensures error == payload && budgets == old(budgets) && loading == old(loading)
    {
      error := payload;
    }

    method DeleteFulfilled(id: Id)
      modifies this
      ensures budgets == RemoveAll(old(budgets), id)
      ensures loading == old(loading) && error == old(error)
    {
      budgets := RemoveAll(budgets, id);
    }
  }

  /** The savings goal list store. */
  class GoalSlice<P, E> {
    var goals: seq<Doc<P>>
    var loading: bool
    var error: Option<E>

    constructor()
      ensures goals == [] && !loading && error == None
    {
      goals := [];
      loading := false;
      error := None;
    }

    method FetchPending()
      modifies this
      ensures loading && error == None && goals == old(goals)
    {
      loading := true;
      error := None;
    }

    method FetchFulfilled(payload: seq<Doc<P>>)
      modifies this
      ensures !loading && goals == payload && error == old(error)
    {
      loading := false;
      goals := payload;
    }

    method FetchRejected(payload: Option<E>)
      modifies this
      ensures !loading && error == payload && goals == old(goals)
    {
      loading := false;
      error := payload;
    }

    /** `push`: the new goal goes last. */
    method AddFulfilled(d: Doc<P>)
      modifies this
      ensures goals == old(goals) + [d]
      ensures loading == old(loading) && error == old(error)
    {
      goals := goals + [d];
    }

    method UpdateFulfilled(d: Doc<P>)
      modifies this
      ensures goals == ReplaceFirst(old(goals), d)
      ensures loading == old(loading) && error == old(error)
    {
      var index := FindIndex(goals, d.id);
      if index != -1 {
        goals := goals[index := d];
      }
    }

    method DeleteFulfilled(id: Id)
      modifies this
      ensures goals == RemoveAll(old(goals), id)
      ensures loading == old(loading) && error == old(error)
    {
      goals := RemoveAll(goals, id);
    }

    /** The rejected add, update and delete only record the error. */
    method ChangeRejected(payload: Option<E>)
      modifies this
      ensures error == payload && goals == old(goals) && loading == old(loading)
    {
      error := payload;
    }
  }

  /** The investment goal list store: no reducer removes a goal. */
  class InvestmentGoalSlice<P, E> {
    var goals: seq<Doc<P>>
    var loading: bool
    var error: Option<E>

    constructor()
      ensures goals == [] && !loading && error == None
    {
      goals := [];
      loading := false;
      error := None;
    }

    method FetchPending()
      modifies this
      ensures loading && error == None && goals == old(goals)
    {
      loading := true;
      error := None;
    }

    method FetchFulfilled(payload: seq<Doc<P>>)
      modifies this
      ensures !loading && goals == payload && error == old(error)
    {
      loading := false;
      goals := payload;
    }

    method FetchRejected(payload: Option<E>)
      modifies this
      ensures !loading && error == payload && goals == old(goals)
    {
      loading := false;
      error := payload;
    }

    method CreateFulfilled(d: Doc<P>)
      modifies this
      ensures goals == old(goals) + [d]
      ensures loading == old(loading) && error == old(error)
    {
      goals := goals + [d];
    }

    /** An update keeps every id in place, so the list never shrinks. */
    method UpdateFulfilled(d: Doc<P>)
      modifies this
      ensures goals == ReplaceFirst(old(goals), d)
      ensures Ids(goals) == Ids(old(goals))
      ensures loading == old(loading) && error == old(error)
    {
      ReplaceFirstKeepsIds(goals, d);
      var index := FindIndex(goals, d.id);
      if index != -1 {
        goals := goals[index := d];
      }
    }
  }
}
