/** The handle a subscriber gets back: it names one registry entry by id and
    pauses, resumes or removes that entry in place. */
module Subscription {
  import opened Dispatcher

  datatype SubscriptionHandle = SubscriptionHandle(id: nat)
  {
    /** `pause`: marks the entry Paused if it is still registered; an id no
        longer present is ignored.  No other entry changes. */
    method Pause(registry: Registry)
      requires registry.Valid()
      modifies registry
      ensures registry.Valid()
      ensures registry.callbacks == WithStatus(old(registry.callbacks), id, Paused)
      ensures registry.nextId == old(registry.nextId)
    {
      if id in registry.callbacks {
        registry.callbacks := registry.callbacks[id := Paused];
      }
    }

    /** `resume`: marks the entry Active if it is still registered; an id no
        longer present is ignored.  No other entry changes. */
    method Resume(registry: Registry)
      requires registry.Valid()
      modifies registry
      ensures registry.Valid()
      ensures registry.callbacks == WithStatus(old(registry.callbacks), id, Active)
      ensures registry.nextId == old(registry.nextId)
    {
      if id in registry.callbacks {
        registry.callbacks := registry.callbacks[id := Active];
      }
    }

    /** `unsubscribe`: removes the entry, so no later dispatch can reach it. */
    method Unsubscribe(registry: Registry)
      requires registry.Valid()
      modifies registry
      ensures registry.Valid()
      ensures registry.callbacks == old(registry.callbacks) - {id}
      ensures id !in ActiveIds(registry.callbacks)
      ensures registry.nextId == old(registry.nextId)
    {
      registry.callbacks := registry.callbacks - {id};
      RemovedNeverDispatched(old(registry.callbacks), id);
    }
  }
}
