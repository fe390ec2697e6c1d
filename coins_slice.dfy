/**
 * The market-data cache (app/redux/slices/coinsSlice.ts): the last fetched coin
 * list and a fetch status, driven by the three events of one asynchronous fetch.
 */
module CoinsSlice {
  import opened Types

  datatype Status = Idle | Loading | Succeeded | Failed

  /** The actions `getCoinsMarkets` dispatches: pending, then fulfilled or rejected. */
  datatype FetchEvent = Pending | Fulfilled(payload: seq<Coin>) | Rejected(message: string)

  /** The slice state as a value. */
  datatype CoinsSnapshot = CoinsSnapshot(items: seq<Coin>, status: Status, error: Option<string>)

  /** `initialState`: no coins, `idle`, no error. */
  const Initial: CoinsSnapshot := CoinsSnapshot([], Idle, None)

  /** One `extraReducers` case applied to a state. */
  function Reduce(s: CoinsSnapshot, e: FetchEvent): (r: CoinsSnapshot)
    ensures r.status != Idle
    ensures e.Pending? ==> r == CoinsSnapshot(s.items, Loading, None)
    ensures e.Fulfilled? ==> r == CoinsSnapshot(e.payload, Succeeded, s.error)
    ensures e.Rejected? ==> r == CoinsSnapshot(s.items, Failed, Some(e.message))
  {
    match e
    case Pending => s.(status := Loading, error := None)
    case Fulfilled(payload) => s.(status := Succeeded, items := payload)
    case Rejected(message) => s.(status := Failed, error := Some(message))
  }

  /** The state after a history of events, oldest first. */
  function Replay(s: CoinsSnapshot, events: seq<FetchEvent>): (r: CoinsSnapshot)
    ensures events != [] ==> r.status != Idle
    decreases |events|
  {
    if events == [] then s
    else Reduce(Replay(s, events[..|events| - 1]), events[|events| - 1])
  }

  /** The payload of the most recent fulfilled event, if any. */
  function LastPayload(events: seq<FetchEvent>): Option<seq<Coin>>
    decreases |events|
  {
    if events == [] then None
    else if events[|events| - 1].Fulfilled? then Some(events[|events| - 1].payload)
    else LastPayload(events[..|events| - 1])
  }

  /**
   * The cache holds the coins of the most recent successful fetch, and keeps the
   * earlier list through any number of failed or pending fetches.
   */
  lemma {:induction false} ReplayItemsAreLastPayload(s: CoinsSnapshot, events: seq<FetchEvent>)
    ensures Replay(s, events).items == match LastPayload(events)
      case None => s.items
      case Some(p) => p
    decreases |events|
  {
    if events != [] {
      ReplayItemsAreLastPayload(s, events[..|events| - 1]);
    }
  }

  /** Whatever happened before, a pending followed by a fulfilled leaves the payload and no error. */
  lemma PendingThenFulfilled(s: CoinsSnapshot, history: seq<FetchEvent>, payload: seq<Coin>)
    ensures Replay(s, history + [Pending, Fulfilled(payload)]) == CoinsSnapshot(payload, Succeeded, None)
  {
    var h := history + [Pending, Fulfilled(payload)];
    assert h[..|h| - 1] == history + [Pending];
    assert (history + [Pending])[..|history|] == history;
  }

  /**
   * Pending applies in every status, so nothing stops a second request; when two
   * overlap and the first fails after the second was issued, the cache reports
   * `succeeded` while still holding the first request's error.
   */
  lemma OverlappingFetchesLeaveStaleError(payload: seq<Coin>, message: string)
    ensures Replay(Initial, [Pending, Pending, Rejected(message), Fulfilled(payload)])
      == CoinsSnapshot(payload, Succeeded, Some(message))
  {
    var h := [Pending, Pending, Rejected(message), Fulfilled(payload)];
    assert h[..3] == [Pending, Pending, Rejected(message)];
    assert h[..3][..2] == [Pending, Pending];
    assert h[..3][..2][..1] == [Pending];
    assert h[..3][..2][..1][..0] == [];
  }

  /** The slice state the reducers mutate in place. */
  class CoinsState {
    var items: seq<Coin>
    var status: Status
    var error: Option<string>

    function State(): CoinsSnapshot
      reads this
    {
      CoinsSnapshot(items, status, error)
    }

    constructor ()
      ensures State() == Initial
    {
      items := [];
      status := Idle;
      error := None;
    }

    /** `getCoinsMarkets.pending`: `loading`, error cleared, items kept, from any status. */
    method OnPending()
      modifies this
      ensures status == Loading && error == None && items == old(items)
      ensures State() == Reduce(old(State()), Pending)
    {
      status := Loading;
      error := None;
    }

    /** `getCoinsMarkets.fulfilled`: `succeeded`, items replaced wholesale, error left as it was. */
    method OnFulfilled(payload: seq<Coin>)
      modifies this
      ensures status == Succeeded && items == payload && error == old(error)
      ensures State() == Reduce(old(State()), Fulfilled(payload))
    {
      status := Succeeded;
      items := payload;
    }

    /** `getCoinsMarkets.rejected`: `failed`, the message recorded, the previous items kept. */
    method OnRejected(message: string)
      modifies this
      ensures status == Failed && error == Some(message) && items == old(items)
      ensures State() == Reduce(old(State()), Rejected(message))
    {
      status := Failed;
      error := Some(message);
    }
  }
}
