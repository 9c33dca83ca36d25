/** The bounded name -> slot map of the resolution cache, and the cost of keeping it bounded. */
module SlotMaps {
  import opened Options
  import opened Sets

  type Name = string
  type SlotId = nat
  /** Milliseconds. */
  type Time = nat

  const PRUNE_MIN_SLOTS: nat := 1_024
  const MAX_SLOTS: nat := 16_384
  const PRUNE_AT_CAP_INTERVAL: nat := 1_000

  /** The map and its sweep bookkeeping. The last five fields are history: names inserted so
      far, slots examined by sweeps below the cap, and, as of the last sweep, the size it left
      and the names inserted; and the times of the sweeps made at the cap. */
  datatype SlotMap = SlotMap(
    slots: map<Name, SlotId>,
    nextPrune: nat,
    lastPruneAtCap: Option<Time>,
    inserted: nat,
    examined: nat,
    sizeAtSweep: nat,
    insertedAtSweep: nat,
    capSweeps: seq<Time>)

  const EMPTY := SlotMap(map[], PRUNE_MIN_SLOTS, None, 0, 0, 0, 0, [])

  function Clamp(n: nat): nat {
    if n < PRUNE_MIN_SLOTS then PRUNE_MIN_SLOTS else if n > MAX_SLOTS then MAX_SLOTS else n
  }

  function Kept(slots: map<Name, SlotId>, live: set<SlotId>): map<Name, SlotId> {
    map n | n in slots && slots[n] in live :: slots[n]
  }

  /** Drop every name whose slot is not in `live` (in use, or holding a fresh entry). At the cap
      a sweep is skipped if the last one was less than an interval ago. */
  function Prune(m: SlotMap, now: Time, live: set<SlotId>): SlotMap {
    var full := |m.slots| >= MAX_SLOTS;
    if full && m.lastPruneAtCap.Some? && now < m.lastPruneAtCap.value + PRUNE_AT_CAP_INTERVAL then m
    else
      var kept := Kept(m.slots, live);
      m.(slots := kept,
         nextPrune := Clamp(|kept| * 2),
         lastPruneAtCap := if full then Some(now) else m.lastPruneAtCap,
         examined := m.examined + if full then 0 else |m.slots|,
         sizeAtSweep := |kept|,
         insertedAtSweep := m.inserted,
         capSweeps := if full then m.capSweeps + [now] else m.capSweeps)
  }

  /** The slot for `name`: the one mapped, or `spare`, which is mapped too unless the map is
      still full after a sweep. */
  function GetOrInsert(m: SlotMap, name: Name, now: Time, live: set<SlotId>, spare: SlotId): (SlotMap, SlotId) {
    if name in m.slots then (m, m.slots[name])
    else
      var swept := if |m.slots| >= m.nextPrune then Prune(m, now, live) else m;
      if |swept.slots| >= MAX_SLOTS then (swept, spare)
      else (swept.(slots := swept.slots[name := spare], inserted := swept.inserted + 1), spare)
  }

  /** Forget `name` if it is still mapped to `slot`. */
  function Remove(m: SlotMap, name: Name, slot: SlotId): SlotMap {
    if name in m.slots && m.slots[name] == slot then m.(slots := m.slots - {name}) else m
  }

  /** The map stays within its caps, and the sweeping is paid for by the insertions. */
  predicate Bounded(m: SlotMap, now: Time) {
    && |m.slots| <= m.nextPrune <= MAX_SLOTS && PRUNE_MIN_SLOTS <= m.nextPrune
    && m.insertedAtSweep <= m.inserted
    && |m.slots| + m.insertedAtSweep <= m.sizeAtSweep + m.inserted
    && (m.nextPrune == MAX_SLOTS || 2 * m.sizeAtSweep <= m.nextPrune)
    && m.examined <= 2 * m.insertedAtSweep
    && (m.lastPruneAtCap.None? <==> m.capSweeps == [])
    && (m.capSweeps != [] ==> m.lastPruneAtCap == Some(m.capSweeps[|m.capSweeps| - 1]))
    && (m.lastPruneAtCap.Some? ==> m.lastPruneAtCap.value <= now)
    && forall i :: 0 < i < |m.capSweeps| ==> m.capSweeps[i - 1] + PRUNE_AT_CAP_INTERVAL <= m.capSweeps[i]
  }

  lemma {:induction false} KeptIsSmaller(m: map<Name, SlotId>, live: set<SlotId>)
    ensures |Kept(m, live)| <= |m|
  {
    var kept := Kept(m, live);
    assert kept.Keys <= m.Keys;
    SubsetSize(kept.Keys, m.Keys);
    assert |kept.Keys| == |kept| && |m.Keys| == |m|;
  }

  lemma {:induction false} PruneBounded(m: SlotMap, now: Time, live: set<SlotId>)
    requires Bounded(m, now) && |m.slots| >= m.nextPrune
    ensures Bounded(Prune(m, now, live), now)
    ensures |Prune(m, now, live).slots| < MAX_SLOTS ==> |Prune(m, now, live).slots| < Prune(m, now, live).nextPrune
  {
    KeptIsSmaller(m.slots, live);
  }

  /** Every lookup keeps the bounds. */
  lemma {:induction false} GetOrInsertBounded(m: SlotMap, name: Name, now: Time, live: set<SlotId>, spare: SlotId)
    requires Bounded(m, now)
    ensures Bounded(GetOrInsert(m, name, now, live, spare).0, now)
  {
    if name !in m.slots {
      if |m.slots| >= m.nextPrune {
        PruneBounded(m, now, live);
      }
    }
  }

  /** What a lookup may change: it drops only names whose slot is not live, and adds at most the
      name asked for. */
  lemma {:induction false} GetOrInsertMaps(m: SlotMap, name: Name, now: Time, live: set<SlotId>, spare: SlotId)
    ensures var (m', id) := GetOrInsert(m, name, now, live, spare);
            && (forall n :: n in m.slots && m.slots[n] in live ==> n in m'.slots && m'.slots[n] == m.slots[n])
            && (forall n :: n in m'.slots ==>
                  (n in m.slots && m'.slots[n] == m.slots[n]) || (n == name && m'.slots[n] == spare && id == spare))
            && (if name in m.slots then m' == m && id == m.slots[name]
                else id == spare && (name in m'.slots ==> m'.slots[name] == spare))
  {
  }

  /** The name asked for is left out exactly when it was not there and the others fill the map. */
  lemma {:induction false} GetOrInsertFull(m: SlotMap, name: Name, now: Time, live: set<SlotId>, spare: SlotId)
    requires Bounded(m, now)
    ensures var m' := GetOrInsert(m, name, now, live, spare).0;
            name !in m'.slots <==> name !in m.slots && |m'.slots - {name}| == MAX_SLOTS
  {
    hide Prune, Bounded;
    if name !in m.slots {
      SweptRoom(m, name, now, live);
      AddedThenLess((if |m.slots| >= m.nextPrune then Prune(m, now, live) else m).slots, name, spare);
    }
  }

  lemma {:induction false} AddedThenLess(slots: map<Name, SlotId>, name: Name, spare: SlotId)
    requires name !in slots
    ensures slots[name := spare] - {name} == slots && slots - {name} == slots
  {
  }

  lemma {:induction false} SweptRoom(m: SlotMap, name: Name, now: Time, live: set<SlotId>)
    requires Bounded(m, now) && name !in m.slots
    ensures var swept := if |m.slots| >= m.nextPrune then Prune(m, now, live) else m;
            name !in swept.slots && |swept.slots| <= MAX_SLOTS
  {
    if |m.slots| >= m.nextPrune {
      KeptIsSmaller(m.slots, live);
    }
  }

  lemma {:induction false} RemoveBounded(m: SlotMap, name: Name, slot: SlotId, now: Time)
    requires Bounded(m, now)
    ensures Bounded(Remove(m, name, slot), now)
  {
    var r := Remove(m, name, slot);
    assert r.slots.Keys <= m.slots.Keys;
    SubsetSize(r.slots.Keys, m.slots.Keys);
    assert |r.slots.Keys| == |r.slots| && |m.slots.Keys| == |m.slots|;
  }

  /** Any two sweeps at the cap are at least as many intervals apart as there are sweeps between. */
  lemma {:induction false} CapSweepsApart(m: SlotMap, now: Time, i: nat, j: nat)
    requires Bounded(m, now) && i < j < |m.capSweeps|
    ensures m.capSweeps[i] + (j - i) * PRUNE_AT_CAP_INTERVAL <= m.capSweeps[j]
    decreases j
  {
    if i + 1 < j {
      CapSweepsApart(m, now, i, j - 1);
    }
  }

  // ----- The map as it is updated in place -----

  /** Look at every name once, dropping it unless its slot is live. */
  method Retain(slots: map<Name, SlotId>, live: set<SlotId>) returns (kept: map<Name, SlotId>)
    ensures kept == Kept(slots, live)
  {
    kept := slots;
    var todo := slots.Keys;
    while todo != {}
      invariant todo <= slots.Keys
      invariant kept == map n | n in slots && (n in todo || slots[n] in live) :: slots[n]
      decreases |todo|
    {
      var n :| n in todo;
      todo := todo - {n};
      if slots[n] !in live {
        kept := kept - {n};
      }
    }
  }

  class SlotStore {
    var slots: map<Name, SlotId>
    var nextPrune: nat
    var lastPruneAtCap: Option<Time>
    ghost var inserted: nat
    ghost var examined: nat
    ghost var sizeAtSweep: nat
    ghost var insertedAtSweep: nat
    ghost var capSweeps: seq<Time>

    ghost function State(): SlotMap
      reads this
    {
      SlotMap(slots, nextPrune, lastPruneAtCap, inserted, examined, sizeAtSweep, insertedAtSweep, capSweeps)
    }

    constructor ()
      ensures State() == EMPTY
    {
      slots, nextPrune, lastPruneAtCap := map[], PRUNE_MIN_SLOTS, None;
      inserted, examined, sizeAtSweep, insertedAtSweep, capSweeps := 0, 0, 0, 0, [];
    }

    /** The sweep, skipped when the last one at the cap is too recent. */
    method Sweep(now: Time, live: set<SlotId>)
      modifies this
      ensures State() == Prune(old(State()), now, live)
    {
      if |slots| >= MAX_SLOTS {
        if lastPruneAtCap.Some? && now < lastPruneAtCap.value + PRUNE_AT_CAP_INTERVAL { return; }
        lastPruneAtCap := Some(now);
        capSweeps := capSweeps + [now];
      } else {
        examined := examined + |slots|;
      }
      slots := Retain(slots, live);
      var doubled := |slots| * 2;
      nextPrune := if doubled < PRUNE_MIN_SLOTS then PRUNE_MIN_SLOTS
                   else if doubled > MAX_SLOTS then MAX_SLOTS else doubled;
      sizeAtSweep, insertedAtSweep := |slots|, inserted;
    }

    method Lookup(name: Name, now: Time, live: set<SlotId>, spare: SlotId) returns (slot: SlotId)
      modifies this
      ensures (State(), slot) == GetOrInsert(old(State()), name, now, live, spare)
    {
      if name in slots { return slots[name]; }
      if |slots| >= nextPrune {
        Sweep(now, live);
      }
      if |slots| >= MAX_SLOTS { return spare; }
      slots := slots[name := spare];
      inserted := inserted + 1;
      slot := spare;
    }

    /** After a failed resolve nobody else waits on: the name is gone if it mapped to this slot, all
        other names stay with theirs, and the bounds hold on. */
    method Forget(name: Name, slot: SlotId)
      modifies this
      ensures State() == Remove(old(State()), name, slot)
      ensures !(name in slots && slots[name] == slot)
      ensures forall n :: n in old(slots) && (n != name || old(slots)[n] != slot) ==>
                n in slots && slots[n] == old(slots)[n]
      ensures forall now :: Bounded(old(State()), now) ==> Bounded(State(), now)
    {
      forall now | Bounded(State(), now) ensures Bounded(Remove(State(), name, slot), now) {
        RemoveBounded(State(), name, slot, now);
      }
      if name in slots && slots[name] == slot {
        slots := slots - {name};
      }
    }
  }
}
