/** The users-list state (`usersSlice`): the page of users last fetched, the
    total count the server reported, a loading flag and the last error. */
module Users {
  import opened Wrappers

  datatype Role = Admin | User
  datatype Provider = Local | Reqres

  /** One user as the server returns it (`IUser`). */
  datatype UserRecord = UserRecord(
    id: int,
    name: string,
    email: string,
    avatarUrl: Option<string>,
    role: Role,
    provider: Provider,
    createdAt: Option<string>)

  /** The body of a successful fetch: `{ users, meta: { total } }`. */
  datatype UsersPage = UsersPage(users: seq<UserRecord>, metaTotal: int)

  /** The three lifecycle events of a users fetch. */
  datatype FetchEvent =
    | Pending
    | Fulfilled(page: UsersPage)
    | Rejected(message: Option<string>)

  datatype UsersState = UsersState(items: seq<UserRecord>, total: int, loading: bool, error: Option<string>)

  /** `initialState`: no users, a total of zero, not loading, no error. */
  function InitialState(): (s: UsersState)
    ensures s.items == [] && s.total == 0 && !s.loading && s.error.None?
  {
    UsersState([], 0, false, None)
  }

  /** One reducer case applied to a state value. */
  function Reduce(s: UsersState, e: FetchEvent): UsersState
  {
    match e
    case Pending => s.(loading := true)
    case Fulfilled(page) => s.(loading := false, items := page.users, total := page.metaTotal)
    case Rejected(message) => s.(loading := false, error := message)
  }

  /** A sequence of events applied in order. */
  function ReduceAll(s: UsersState, events: seq<FetchEvent>): UsersState
    decreases |events|
  {
    if events == [] then s else ReduceAll(Reduce(s, events[0]), events[1..])
  }

  // ---------------------------------------------------------------------
  // Properties of the reducer

  /** Each event changes exactly the fields its case assigns. */
  lemma ReduceFrames(s: UsersState, e: FetchEvent)
    ensures var r := Reduce(s, e);
      && (e.Pending? ==> r.loading && r.items == s.items && r.total == s.total && r.error == s.error)
      && (e.Fulfilled? ==> !r.loading && r.items == e.page.users && r.total == e.page.metaTotal && r.error == s.error)
      && (e.Rejected? ==> !r.loading && r.error == e.message && r.items == s.items && r.total == s.total)
  {
  }

  /** Index of the last fulfilled event in `events`, if any. */
  function LastFulfilled(events: seq<FetchEvent>): (r: Option<nat>)
    ensures r.Some? ==> r.value < |events| && events[r.value].Fulfilled?
    ensures r.Some? ==> forall k :: r.value < k < |events| ==> !events[k].Fulfilled?
    ensures r.None? ==> forall k :: 0 <= k < |events| ==> !events[k].Fulfilled?
  {
    if events == [] then None
    else if events[|events| - 1].Fulfilled? then Some(|events| - 1)
    else LastFulfilled(events[..|events| - 1])
  }

  /** After any run of events, `loading` is true exactly when the last event was
      `pending`, and the list and total are those of the last fulfilled fetch
      (the earlier ones when no fetch was fulfilled): a rejection never discards them. */
  lemma {:induction false} ReduceAllOutcome(s: UsersState, events: seq<FetchEvent>)
    ensures var r := ReduceAll(s, events);
      && r.loading == (if events == [] then s.loading else events[|events| - 1].Pending?)
      && (match LastFulfilled(events)
          case None => r.items == s.items && r.total == s.total
          case Some(k) => r.items == events[k].page.users && r.total == events[k].page.metaTotal)
  {
    if events != [] {
      var init, last := events[..|events| - 1], events[|events| - 1];
      ReduceAllSnoc(s, init, last);
      assert events == init + [last];
      ReduceAllOutcome(s, init);
      if !last.Fulfilled? {
        assert LastFulfilled(events) == LastFulfilled(init);
      }
    }
  }

  /** Applying one more event after a run is the same as reducing the extended run. */
  lemma {:induction false} ReduceAllSnoc(s: UsersState, events: seq<FetchEvent>, e: FetchEvent)
    ensures ReduceAll(s, events + [e]) == Reduce(ReduceAll(s, events), e)
    decreases |events|
  {
    if events != [] {
      assert (events + [e])[1..] == events[1..] + [e];
      ReduceAllSnoc(Reduce(s, events[0]), events[1..], e);
    }
  }

  /** The slice state as the application holds it, updated in place by each reducer case. */
  class UsersSlice {
    var items: seq<UserRecord>
    var total: int
    var loading: bool
    var error: Option<string>

    function Model(): UsersState
      reads this
    {
      UsersState(items, total, loading, error)
    }

    /** The slice's `initialState`. */
    constructor ()
      ensures Model() == InitialState()
    {
      items := [];
      total := 0;
      loading := false;
      error := None;
    }

    /** The `pending` case: only `loading` changes, to true. */
    method OnPending()
      modifies this
      ensures loading
      ensures items == old(items) && total == old(total) && error == old(error)
      ensures Model() == Reduce(old(Model()), Pending)
    {
      loading := true;
    }

    /** The `fulfilled` case: loading ends, the list and total come from the payload, `error` is kept. */
    method OnFulfilled(page: UsersPage)
      modifies this
      ensures !loading && items == page.users && total == page.metaTotal
      ensures error == old(error)
      ensures Model() == Reduce(old(Model()), Fulfilled(page))
    {
      loading := false;
      items := page.users;
      total := page.metaTotal;
    }

    /** The `rejected` case: loading ends, `error` becomes the message (null when there is none),
        the list and total are kept. */
    method OnRejected(message: Option<string>)
      modifies this
      ensures !loading && error == message
      ensures items == old(items) && total == old(total)
      ensures Model() == Reduce(old(Model()), Rejected(message))
    {
      loading := false;
      error := message;
    }
  }
}
