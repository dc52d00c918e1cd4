/**
 * The shared source store that the hooks talk to. Its implementation is
 * not part of this model; only the capabilities the hooks use are kept:
 * `get`, `set` (a full replace of one key's record), `notify` and
 * `subscribe`. Notifications and subscriptions are recorded in logs
 * rather than dispatched.
 */
module Store {
  import opened Wrappers
  import opened Types

  /** The record held for a key, if any. */
  function Lookup(records: map<string, SourceCodeState>, key: string): (r: Option<SourceCodeState>)
    ensures r.Some? <==> key in records
    ensures r.Some? ==> r.value == records[key]
  {
    if key in records then Some(records[key]) else None
  }

  class SourceCodeStore {
    /** The record held for each scoped key. */
    var records: map<string, SourceCodeState>
    /** Every key passed to `notify`, oldest first. */
    var notified: seq<string>
    /** Every key passed to `subscribe`, oldest first. */
    var subscriptions: seq<string>

    constructor()
      ensures records == map[] && notified == [] && subscriptions == []
    {
      records := map[];
      notified := [];
      subscriptions := [];
    }

    /** `get`: no data for an unset key, never an error. */
    function Get(key: string): Option<SourceCodeState>
      reads this
    {
      Lookup(records, key)
    }

    /** `set`: replaces the whole record of one key. */
    method Set(key: string, state: SourceCodeState)
      modifies this
      ensures records == old(records)[key := state]
      ensures notified == old(notified) && subscriptions == old(subscriptions)
    {
      records := records[key := state];
    }

    /** `notify`: announces a change of one key. */
    method Notify(key: string)
      modifies this
      ensures notified == old(notified) + [key]
      ensures records == old(records) && subscriptions == old(subscriptions)
    {
      notified := notified + [key];
    }

    /** `subscribe`: registers interest in one key. */
    method Subscribe(key: string)
      modifies this
      ensures subscriptions == old(subscriptions) + [key]
      ensures records == old(records) && notified == old(notified)
    {
      subscriptions := subscriptions + [key];
    }
  }
}
