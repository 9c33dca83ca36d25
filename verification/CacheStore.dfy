/** The resolution cache's own data as its methods update it: the name map, the slots and the
    references callers hold to them. */
module CacheStore {
  import opened Options
  import opened SlotMaps
  import opened ResolutionCache

  /** References to a slot other than the map's. */
  function Holders(t: Table, id: SlotId): set<CallerId> {
    set c | c in t.callers && t.callers[c].slot == id
  }

  /** The count of them, kept by the reference counter. */
  method CountHolders(t: Table, id: SlotId) returns (n: nat)
    ensures n == |Holders(t, id)| && (n > 0 <==> InUse(t, id))
  {
    n := 0;
    var todo := t.callers.Keys;
    ghost var seen: set<CallerId> := {};
    while todo != {}
      invariant todo <= t.callers.Keys && n == |seen|
      invariant seen == set c | c in t.callers && c !in todo && t.callers[c].slot == id
      decreases |todo|
    {
      var c :| c in todo;
      todo := todo - {c};
      if t.callers[c].slot == id {
        seen := seen + {c};
        n := n + 1;
      }
    }
    assert seen == Holders(t, id);
    HoldersUse(t, id);
  }

  lemma {:induction false} HoldersUse(t: Table, id: SlotId)
    ensures |Holders(t, id)| > 0 <==> InUse(t, id)
  {
    if InUse(t, id) {
      var c :| c in t.callers && t.callers[c].slot == id;
      assert c in Holders(t, id);
    }
  }

  /** What a sweep keeps: slots held by someone, and those with an entry of the current
      generation within its TTL. */
  method LiveSlots(t: Table, now: Time, ttl: nat) returns (live: set<SlotId>)
    ensures live == Live(t, now, ttl)
  {
    live := {};
    var todo := t.slots.Keys;
    while todo != {}
      invariant todo <= t.slots.Keys
      invariant live == set id | id in t.slots && id !in todo
                && (InUse(t, id) || Usable(t.slots[id].entry, t.slots[id].generation, now, ttl))
      decreases |todo|
    {
      hide InUse, Usable;
      var id :| id in todo;
      todo := todo - {id};
      var held := CountHolders(t, id);
      if held > 0 || Usable(t.slots[id].entry, t.slots[id].generation, now, ttl) {
        live := live + {id};
      }
    }
  }

  class Store {
    const names: SlotStore
    var table: Table

    constructor ()
      ensures fresh(names) && names.State() == EMPTY && table == Table(map[], map[], 0)
    {
      names := new SlotStore();
      table := Table(map[], map[], 0);
    }

    /** Fetch a name's slot for a caller, sweeping first if the map has grown to its mark. */
    method Fetch(c: CallerId, name: Name, now: Time, ttl: nat, ghost s: State)
      requires s.names == names.State() && s.table == table && s.now == now
      modifies this, names
      ensures var s' := ArriveStep(s, c, name, ttl); names.State() == s'.names && table == s'.table
    {
      hide GetOrInsert, Live;
      var live := LiveSlots(table, now, ttl);
      var id := names.Lookup(name, now, live, table.next);
      table := Join(table, c, name, id, name !in names.slots);
    }

    /** After a failed resolve: the name goes if nobody but the map and this caller hold its slot,
        and then the caller's reference goes. */
    method ForgetFailed(c: CallerId, ghost s: State)
      requires s.names == names.State() && s.table == table && Ready(table, c)
      modifies this, names
      ensures var s' := ForgetStep(s, c); names.State() == s'.names && table == s'.table
    {
      var k := table.callers[c];
      var held := CountHolders(table, k.slot);
      OneLess(table, c);
      hide InUse, Remove;
      if held == 1 {
        names.Forget(k.name, k.slot);
      }
      table := Update(table, c, SlotOf(table, c), None);
    }

    /** Bump the generation of a mapped name, waiting for nobody: nothing known about the name before
        is usable any more, and no other slot is touched. */
    method Invalidate(name: Name, ghost s: State, ghost ttl: nat)
      requires s.names == names.State() && s.table == table
      modifies this`table
      ensures table == Apply(s, ResolutionCache.Invalidate(name), ttl).table
      ensures Inv(s, ttl) ==>
                Outdated(names.slots, table, name) && Inv(Apply(s, ResolutionCache.Invalidate(name), ttl), ttl)
      ensures table.callers == old(table).callers && table.slots.Keys == old(table).slots.Keys
      ensures forall id :: id in table.slots && (name in names.slots ==> id != names.slots[name]) ==>
                table.slots[id] == old(table).slots[id]
    {
      if Inv(s, ttl) {
        InvalidateOutdates(s, name, ttl);
        StepKeeps(s, ResolutionCache.Invalidate(name), ttl);
      }
      hide Inv, Outdated;
      if name in names.slots && names.slots[name] in table.slots {
        var slot := table.slots[names.slots[name]];
        table := table.(slots := table.slots[names.slots[name] := slot.(generation := slot.generation + 1)]);
      }
    }
  }

  /** A caller is the only holder exactly when nobody holds the slot without it. */
  lemma {:induction false} OneLess(t: Table, c: CallerId)
    requires Ready(t, c)
    ensures var id := t.callers[c].slot;
            |Holders(t, id)| == 1 <==> !InUse(Update(t, c, SlotOf(t, c), None), id)
  {
    var id := t.callers[c].slot;
    var t' := Update(t, c, SlotOf(t, c), None);
    assert Holders(t', id) == Holders(t, id) - {c} && c in Holders(t, id);
    HoldersUse(t', id);
  }
}
