/** The client-side cache of vault rows kept by the `useVault` hook.

    The hook holds `{items, loading, error}` and offers fetch, add, update,
    delete and search. Every call into the storage service is replaced by a
    parameter `reply`: what the service answered. Each operation runs as one
    atomic sequence of state commits (the commits of React's `setState`). */
module UseVault {
  import opened Wrappers
  import opened SupabaseTypes

  /** An error as the hook stores and returns it. */
  datatype Error = Error(message: string)

  /** The error returned by add, update and delete when no user is signed in. */
  const NotAuthenticated: Error := Error("Not authenticated")

  /** What the storage service answers to one request. */
  datatype Reply<T> = Ok(value: T) | Err(error: Error)

  /** What an operation hands back to its caller: `{ data }` or `{ error }`. */
  datatype Outcome<T> = Data(data: T) | Failure(error: Error)

  /** The state the hook holds. */
  datatype VaultState = VaultState(items: seq<VaultItem>, loading: bool, error: Option<Error>)

  /** The state the hook starts from. */
  const InitialState: VaultState := VaultState([], false, None)

  /** The guard `!userId` fails for `undefined` and for the empty string. */
  predicate SignedIn(userId: Option<string>) {
    userId.Some? && userId.value != ""
  }

  /** The state committed before the service is contacted: loading on, error
      cleared, items kept. */
  function Requesting(s: VaultState): VaultState {
    s.(loading := true, error := None)
  }

  /** The state committed after a service error: the items are kept. */
  function Failed(s: VaultState, e: Error): VaultState {
    s.(loading := false, error := Some(e))
  }

  // ---------------------------------------------------------------------------
  // The list updaters of update (a `map`) and delete (a `filter`)
  // ---------------------------------------------------------------------------

  /** `items.map(item => item.id === id ? row : item)` */
  function ReplaceById(items: seq<VaultItem>, id: string, row: VaultItem): (r: seq<VaultItem>)
    ensures |r| == |items|
    ensures forall i :: 0 <= i < |items| && items[i].id == id ==> r[i] == row
    ensures forall i :: 0 <= i < |items| && items[i].id != id ==> r[i] == items[i]
  {
    if items == [] then []
    else [if items[0].id == id then row else items[0]] + ReplaceById(items[1..], id, row)
  }

  /** `items.filter(item => item.id !== id)` */
  function RemoveById(items: seq<VaultItem>, id: string): (r: seq<VaultItem>)
    ensures |r| <= |items|
    ensures forall x :: x in r <==> x in items && x.id != id
  {
    if items == [] then []
    else if items[0].id == id then RemoveById(items[1..], id)
    else [items[0]] + RemoveById(items[1..], id)
  }

  /** `a` can be obtained from `b` by dropping elements: order is kept. */
  ghost predicate IsSubsequence<T>(a: seq<T>, b: seq<T>)
    decreases |b|
  {
    a == [] || (b != [] && ((a[0] == b[0] && IsSubsequence(a[1..], b[1..])) || IsSubsequence(a, b[1..])))
  }

  /** The ids of a list, in order. */
  function Ids(items: seq<VaultItem>): (r: seq<string>)
    ensures |r| == |items|
    ensures forall i :: 0 <= i < |items| ==> r[i] == items[i].id
  {
    if items == [] then [] else [items[0].id] + Ids(items[1..])
  }

  /** Delete keeps the surviving rows in their original relative order. */
  lemma {:induction false} RemoveKeepsOrder(items: seq<VaultItem>, id: string)
    ensures IsSubsequence(RemoveById(items, id), items)
  {
    if items != [] {
      RemoveKeepsOrder(items[1..], id);
      if items[0].id != id {
        assert RemoveById(items, id)[1..] == RemoveById(items[1..], id);
      }
    }
  }

  /** Delete removes every copy of a row with the target id and keeps every
      copy of every other row. */
  lemma {:induction false} RemoveCounts(items: seq<VaultItem>, id: string, x: VaultItem)
    ensures multiset(RemoveById(items, id))[x] == if x.id == id then 0 else multiset(items)[x]
  {
    if items != [] {
      RemoveCounts(items[1..], id, x);
      assert items == [items[0]] + items[1..];
    }
  }

  /** Deleting an id that no row carries leaves the list as it was. */
  lemma {:induction false} RemoveAbsent(items: seq<VaultItem>, id: string)
    requires forall i :: 0 <= i < |items| ==> items[i].id != id
    ensures RemoveById(items, id) == items
  {
    if items != [] {
      RemoveAbsent(items[1..], id);
      assert items == [items[0]] + items[1..];
    }
  }

  /** Repeating a delete changes nothing more. */
  lemma RemoveIdempotent(items: seq<VaultItem>, id: string)
    ensures RemoveById(RemoveById(items, id), id) == RemoveById(items, id)
  {
  }

  /** Updating an id that no row carries leaves the list as it was. */
  lemma ReplaceAbsent(items: seq<VaultItem>, id: string, row: VaultItem)
    requires forall i :: 0 <= i < |items| ==> items[i].id != id
    ensures ReplaceById(items, id, row) == items
  {
  }

  /** When the returned row keeps the target's id (the service updates the row
      selected by `.eq('id', id)`), the ids of the list are unchanged. */
  lemma ReplaceKeepsIds(items: seq<VaultItem>, id: string, row: VaultItem)
    requires row.id == id
    ensures Ids(ReplaceById(items, id, row)) == Ids(items)
  {
  }

  /** Repeating an update with the same reply changes nothing more. */
  lemma ReplaceIdempotent(items: seq<VaultItem>, id: string, row: VaultItem)
    ensures ReplaceById(ReplaceById(items, id, row), id, row) == ReplaceById(items, id, row)
  {
  }

  /** The hook. `userId` is the hook's argument; it is passed to each call
      because the held state outlives a change of user. */
  class VaultHook {
    var items: seq<VaultItem>
    var loading: bool
    var error: Option<Error>
    /** Every state committed by `setState`, oldest first. */
    ghost var renders: seq<VaultState>

    function State(): VaultState
      reads this
    {
      VaultState(items, loading, error)
    }

    /** `useState({ items: [], loading: false, error: null })` */
    constructor ()
      ensures State() == InitialState
      ensures renders == []
    {
      items, loading, error := [], false, None;
      renders := [];
    }

    /** One `setState` call: commits `s` as the new state. */
    method SetState(s: VaultState)
      modifies this
      ensures State() == s
      ensures renders == old(renders) + [s]
    {
      items, loading, error := s.items, s.loading, s.error;
      renders := renders + [s];
    }

    /** `fetchVaultItems`: `reply` is the service's answer to the select. */
    method FetchVaultItems(userId: Option<string>, reply: Reply<seq<VaultItem>>) returns (r: Option<Outcome<seq<VaultItem>>>)
      modifies this
      ensures !SignedIn(userId) ==> r == None && unchanged(this)
      ensures SignedIn(userId) && reply.Err? ==>
        r == Some(Failure(reply.error)) &&
        State() == Failed(Requesting(old(State())), reply.error) &&
        renders == old(renders) + [Requesting(old(State())), State()]
      ensures SignedIn(userId) && reply.Ok? ==>
        r == Some(Data(reply.value)) &&
        State() == VaultState(reply.value, false, None) &&
        renders == old(renders) + [Requesting(old(State())), State()]
    {
      if !SignedIn(userId) {
        return None;
      }
      SetState(Requesting(State()));
      match reply
      case Err(e) =>
        SetState(Failed(State(), e));
        r := Some(Failure(e));
      case Ok(rows) =>
        SetState(VaultState(rows, false, None));
        r := Some(Data(rows));
    }

    /** `addVaultItem`: `reply` is the row the service inserted, or its error. */
    method AddVaultItem(userId: Option<string>, reply: Reply<VaultItem>) returns (r: Outcome<VaultItem>)
      modifies this
      ensures !SignedIn(userId) ==> r == Failure(NotAuthenticated) && unchanged(this)
      ensures SignedIn(userId) ==> renders == old(renders) + [Requesting(old(State())), State()]
      ensures SignedIn(userId) && reply.Err? ==>
        r == Failure(reply.error) && State() == Failed(Requesting(old(State())), reply.error)
      ensures SignedIn(userId) && reply.Ok? ==>
        r == Data(reply.value) &&
        State() == VaultState([reply.value] + old(items), false, None)
    {
      if !SignedIn(userId) {
        return Failure(NotAuthenticated);
      }
      SetState(Requesting(State()));
      match reply
      case Err(e) =>
        SetState(Failed(State(), e));
        r := Failure(e);
      case Ok(row) =>
        var prev := State();
        SetState(prev.(items := [row] + prev.items, loading := false));
        r := Data(row);
    }

    /** `updateVaultItem`: `reply` is the updated row, or the service's error.
        The new title and payload travel only to the service. */
    method UpdateVaultItem(userId: Option<string>, id: string, reply: Reply<VaultItem>) returns (r: Outcome<VaultItem>)
      modifies this
      ensures !SignedIn(userId) ==> r == Failure(NotAuthenticated) && unchanged(this)
      ensures SignedIn(userId) ==> renders == old(renders) + [Requesting(old(State())), State()]
      ensures SignedIn(userId) && reply.Err? ==>
        r == Failure(reply.error) && State() == Failed(Requesting(old(State())), reply.error)
      ensures SignedIn(userId) && reply.Ok? ==>
        r == Data(reply.value) &&
        State() == VaultState(ReplaceById(old(items), id, reply.value), false, None)
    {
      if !SignedIn(userId) {
        return Failure(NotAuthenticated);
      }
      SetState(Requesting(State()));
      match reply
      case Err(e) =>
        SetState(Failed(State(), e));
        r := Failure(e);
      case Ok(row) =>
        var prev := State();
        SetState(prev.(items := ReplaceById(prev.items, id, row), loading := false));
        r := Data(row);
    }

    /** `deleteVaultItem`: `reply` says whether the service's delete failed.
        The result is the returned `error` field: null on success. */
    method DeleteVaultItem(userId: Option<string>, id: string, reply: Reply<()>) returns (r: Option<Error>)
      modifies this
      ensures !SignedIn(userId) ==> r == Some(NotAuthenticated) && unchanged(this)
      ensures SignedIn(userId) ==> renders == old(renders) + [Requesting(old(State())), State()]
      ensures SignedIn(userId) && reply.Err? ==>
        r == Some(reply.error) && State() == Failed(Requesting(old(State())), reply.error)
      ensures SignedIn(userId) && reply.Ok? ==>
        r == None &&
        State() == VaultState(RemoveById(old(items), id), false, None)
    {
      if !SignedIn(userId) {
        return Some(NotAuthenticated);
      }
      SetState(Requesting(State()));
      match reply
      case Err(e) =>
        SetState(Failed(State(), e));
        r := Some(e);
      case Ok(_) =>
        var prev := State();
        SetState(prev.(items := RemoveById(prev.items, id), loading := false));
        r := None;
    }

    /** `searchVaultItems`: `reply` is the service's answer to the title
        search. The held state is never touched. */
    method SearchVaultItems(userId: Option<string>, reply: Reply<seq<VaultItem>>) returns (r: Outcome<seq<VaultItem>>)
      ensures !SignedIn(userId) ==> r == Data([])
      ensures SignedIn(userId) && reply.Ok? ==> r == Data(reply.value)
      ensures SignedIn(userId) && reply.Err? ==> r == Failure(reply.error)
    {
      if !SignedIn(userId) {
        return Data([]);
      }
      match reply
      case Err(e) => r := Failure(e);
      case Ok(rows) => r := Data(rows);
    }
  }

  /** A delete followed by the same delete ends where the first one did: the
      items are those of one delete and no error is held. */
  method DeleteTwice(hook: VaultHook, userId: Option<string>, id: string)
    requires SignedIn(userId)
    modifies hook
    ensures hook.items == RemoveById(old(hook.items), id)
  {
    var first := hook.DeleteVaultItem(userId, id, Ok(()));
    var second := hook.DeleteVaultItem(userId, id, Ok(()));
    RemoveIdempotent(old(hook.items), id);
  }
}
