/** The slice of metric storage that error recording relies on: counter metrics kept in a
    store addressed by ping and metric, incremented by `Add` and read back by `TestGetValue`.
    The persistent database behind the real store is replaced by a pure map. */
module Metrics {
  import opened Wrappers

  /** When a stored value is cleared. */
  datatype Lifetime = Ping | Application | User

  /** The metadata a counter metric is built from: its category and name, its lifetime and
      the pings it is sent in. */
  datatype CounterMeta = CounterMeta(category: string, name: string, lifetime: Lifetime, sendInPings: seq<string>)

  /** Where one counter value lives: the ping's storage and the metric's category and name. */
  datatype Key = Key(ping: string, category: string, name: string)

  /** Counter values by storage location. A missing key means nothing was recorded there. */
  type Store = map<Key, nat>

  /** The value at `k`, zero when nothing was recorded. */
  function Count(store: Store, k: Key): nat {
    if k in store then store[k] else 0
  }

  /** The counter described by `m` lives at `k` in some ping. */
  predicate Owns(m: CounterMeta, k: Key) {
    k.category == m.category && k.name == m.name
  }

  /** How many times ping `p` appears in `pings`. */
  function Occurrences(pings: seq<string>, p: string): nat {
    multiset(pings)[p]
  }

  /** Adds `amount` to the counter `m` once in each ping of `pings`, in list order; a
      ping listed twice is incremented twice. Every other location is left alone. */
  function AddInPings(store: Store, m: CounterMeta, pings: seq<string>, amount: nat): (r: Store)
    ensures forall k :: k in r <==> k in store || (Owns(m, k) && k.ping in pings)
    ensures forall k :: Count(r, k) == Count(store, k) + (if Owns(m, k) then amount * Occurrences(pings, k.ping) else 0)
    decreases |pings|
  {
    if pings == [] then store
    else
      var here := Key(pings[0], m.category, m.name);
      var bumped := store[here := Count(store, here) + amount];
      var r := AddInPings(bumped, m, pings[1..], amount);
      AddInPingsStep(store, m, pings, amount, bumped, r);
      r
  }

  /** One step of `AddInPings`: bumping the first ping and then the rest bumps all of them. */
  lemma AddInPingsStep(store: Store, m: CounterMeta, pings: seq<string>, amount: nat, bumped: Store, r: Store)
    requires pings != []
    requires bumped == store[Key(pings[0], m.category, m.name) := Count(store, Key(pings[0], m.category, m.name)) + amount]
    requires forall k :: Count(r, k) == Count(bumped, k) + (if Owns(m, k) then amount * Occurrences(pings[1..], k.ping) else 0)
    ensures forall k :: Count(r, k) == Count(store, k) + (if Owns(m, k) then amount * Occurrences(pings, k.ping) else 0)
  {
    assert pings == [pings[0]] + pings[1..];
    forall k
      ensures Count(r, k) == Count(store, k) + (if Owns(m, k) then amount * Occurrences(pings, k.ping) else 0)
    {
      var tail := Occurrences(pings[1..], k.ping);
      if Owns(m, k) && k.ping == pings[0] {
        assert Occurrences(pings, k.ping) == tail + 1;
        assert amount * (tail + 1) == amount * tail + amount;
      } else if Owns(m, k) {
        assert Occurrences(pings, k.ping) == tail;
      }
    }
  }

  /** Adds `amount` to the counter in every ping it is sent in. */
  function Add(store: Store, m: CounterMeta, amount: nat): (r: Store)
    ensures forall k :: k in r <==> k in store || (Owns(m, k) && k.ping in m.sendInPings)
    ensures forall k :: Count(r, k) == Count(store, k) + (if Owns(m, k) then amount * Occurrences(m.sendInPings, k.ping) else 0)
  {
    AddInPings(store, m, m.sendInPings, amount)
  }

  /** The counter's value in one ping's storage, or nothing if it was never recorded there. */
  function TestGetValue(store: Store, m: CounterMeta, ping: string): (r: Option<nat>)
    ensures r.Some? <==> exists k :: k in store && Owns(m, k) && k.ping == ping
    ensures r.Some? ==> r.value == Count(store, Key(ping, m.category, m.name))
  {
    var k := Key(ping, m.category, m.name);
    if k in store then Some(store[k]) else None
  }
}
