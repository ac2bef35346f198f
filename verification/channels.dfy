/**
 * The waiter registry (the channel manager's per-request channels): request id to a single-slot
 * waiter. Every close in the socket code also evicts, so a registered waiter is never closed.
 */
module Channels {

  datatype Slot = Empty | Holds(value: string)

  type Registry = map<nat, Slot>

  /** `get($id, true)`: registers an empty waiter for `id`; an existing waiter is kept. */
  function Create(m: Registry, id: nat): (r: Registry)
    ensures r.Keys == m.Keys + {id}
    ensures id in m ==> r == m
    ensures id !in m ==> r[id] == Empty
    ensures forall k :: k in m ==> r[k] == m[k]
  {
    if id in m then m else m[id := Empty]
  }

  /** `close($id)`: closes and evicts the waiter for `id`; an absent id is ignored. */
  function Evict(m: Registry, id: nat): (r: Registry)
    ensures r.Keys == m.Keys - {id}
    ensures forall k :: k in r ==> r[k] == m[k]
  {
    m - {id}
  }

  /** A push onto the waiter of `id`, which then holds `v`. */
  function Fill(m: Registry, id: nat, v: string): (r: Registry)
    requires id in m
    ensures r.Keys == m.Keys
    ensures r[id] == Holds(v)
    ensures forall k :: k in m && k != id ==> r[k] == m[k]
  {
    m[id := Holds(v)]
  }

  /** `flush()`: closes and evicts every waiter. */
  function Flush(): (r: Registry)
    ensures IsEmpty(r)
  {
    map[]
  }

  predicate IsEmpty(m: Registry)
  {
    |m| == 0
  }
}
