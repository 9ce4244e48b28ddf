/** The subscriber registry shared by the listener on every platform: a map
    from subscription id to status, and the counter that hands out ids.
    Callbacks are opaque here; what the model records is which ids a
    dispatch invokes. */
module Dispatcher {
  import opened Events

  /** `Status`: whether a subscriber receives events. */
  datatype Status = Active | Paused

  /** The ids `dispatch` must invoke: those registered as Active. */
  function ActiveIds(callbacks: map<nat, Status>): (ids: set<nat>)
    ensures ids <= callbacks.Keys
    ensures forall id :: id in ids <==> id in callbacks && callbacks[id] == Active
  {
    set id | id in callbacks && callbacks[id] == Active
  }

  /** `callbacks` with the status of `id` replaced, when `id` is registered;
      unchanged otherwise (a lookup that finds nothing does nothing). */
  function WithStatus(callbacks: map<nat, Status>, id: nat, status: Status): (r: map<nat, Status>)
    ensures r.Keys == callbacks.Keys
    ensures id in callbacks ==> r[id] == status
    ensures forall other :: other in callbacks && other != id ==> r[other] == callbacks[other]
  {
    if id in callbacks then callbacks[id := status] else callbacks
  }

  /** Pausing then resuming a registered subscriber leaves it Active and every
      other entry as it was; on an Active subscriber the pair changes nothing. */
  lemma PauseThenResume(callbacks: map<nat, Status>, id: nat)
    ensures var r := WithStatus(WithStatus(callbacks, id, Paused), id, Active);
            r.Keys == callbacks.Keys &&
            (id in callbacks ==> r[id] == Active) &&
            (forall other :: other in callbacks && other != id ==> r[other] == callbacks[other])
    ensures id in callbacks && callbacks[id] == Active ==>
              WithStatus(WithStatus(callbacks, id, Paused), id, Active) == callbacks
  {
    if id in callbacks && callbacks[id] == Active {
      var r := WithStatus(WithStatus(callbacks, id, Paused), id, Active);
      assert forall other :: other in r ==> r[other] == callbacks[other];
    }
  }

  /** A removed id is never among the ids a dispatch invokes, and removal
      leaves every other subscriber's share of the dispatch untouched. */
  lemma RemovedNeverDispatched(callbacks: map<nat, Status>, id: nat)
    ensures id !in ActiveIds(callbacks - {id})
    ensures ActiveIds(callbacks - {id}) == ActiveIds(callbacks) - {id}
  {
    assert forall other :: other in ActiveIds(callbacks - {id}) <==> other in ActiveIds(callbacks) - {id};
  }

  /** `CALLBACKS` and `NEXT_ID`, the two globals of the registry. */
  class Registry {
    var callbacks: map<nat, Status>
    var nextId: nat

    /** Every registered id was handed out by the counter. */
    ghost predicate Valid()
      reads this
    {
      forall id :: id in callbacks ==> id < nextId
    }

    /** The initial state: no subscriber and the counter at 0. */
    constructor ()
      ensures Valid()
      ensures callbacks == map[] && nextId == 0
    {
      callbacks := map[];
      nextId := 0;
    }

    /** `dispatch`: a single pass over the map, in an order the map chooses,
        calling the callback of each Active subscriber.  `invoked` is the
        sequence of ids whose callback ran: exactly the Active ids, each
        once.  The registry itself is not changed. */
    method Dispatch(event: Event) returns (invoked: seq<nat>)
      ensures forall id :: id in invoked <==> id in callbacks && callbacks[id] == Active
      ensures forall i, j :: 0 <= i < j < |invoked| ==> invoked[i] != invoked[j]
    {
      invoked := [];
      var pending := callbacks.Keys;
      ghost var seen: set<nat> := {};
      while pending != {}
        invariant pending <= callbacks.Keys
        invariant seen == callbacks.Keys - pending
        invariant forall id :: id in invoked <==> id in seen && callbacks[id] == Active
        invariant forall i, j :: 0 <= i < j < |invoked| ==> invoked[i] != invoked[j]
        decreases pending
      {
        var id :| id in pending;
        if callbacks[id] == Active {
          invoked := invoked + [id];
        }
        pending := pending - {id};
        seen := seen + {id};
      }
    }

    /** `remove_all`: drops every subscriber and restarts the counter at 0. */
    method RemoveAll()
      modifies this
      ensures Valid()
      ensures callbacks == map[] && nextId == 0
    {
      callbacks := map[];
      nextId := 0;
    }
  }
}
