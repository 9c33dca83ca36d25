/** The resolution cache under concurrent callers: single flight, generations and TTL, as
    steps that may interleave in any order. */
module ResolutionCache {
  import opened SlotMaps
  import opened Options

  type CallerId = nat
  type Address = nat
  type Names = map<Name, SlotId>
  type Stamps = map<Name, nat>

  /** A cached resolution. `begun` is history: the step at which its resolve began. */
  datatype Entry = Entry(resolved: Address, storedAt: Time, generation: nat, begun: nat)

  /** One name's slot: its generation, its entry, and who holds the entry lock. */
  datatype Slot = Slot(generation: nat, entry: Option<Entry>, holder: Option<CallerId>)

  /** Where a caller is inside `get_or_resolve`. `last` and `begun` are history: the name's last
      invalidation when the generation was read, and the step at which the resolve began. */
  datatype Phase =
    | Waiting
    | Locked
    | Loaded(generation: nat, last: int)
    | Resolving(generation: nat, begun: nat)
    | Forgetting

  /** `overflow` is history: the caller was given a slot of its own because the map was full. */
  datatype Caller = Caller(name: Name, slot: SlotId, phase: Phase, overflow: bool)

  /** The slots in existence and the callers that hold references to them. */
  datatype Table = Table(slots: map<SlotId, Slot>, callers: map<CallerId, Caller>, next: SlotId)

  /** History of one hit: its age, when its resolve began, and the last invalidation before it. */
  datatype Hit = Hit(name: Name, age: nat, begun: nat, invalidated: int)

  /** `tick` counts steps; `invalidated` is history: the step of each name's last invalidation. */
  datatype State = State(now: Time, tick: nat, names: SlotMap, table: Table, invalidated: Stamps, hits: seq<Hit>)

  const INIT := State(0, 0, EMPTY, Table(map[], map[], 0), map[], [])

  /** One atomic step: a caller fetches its slot, takes the entry lock, reads the generation,
      looks at the entry, finishes or fails its resolve, tidies up after a failure, or is
      cancelled; a name is invalidated, which waits for no lock; time passes. */
  datatype Action =
    | Arrive(c: CallerId, name: Name)
    | Lock(c: CallerId)
    | Load(c: CallerId)
    | Look(c: CallerId)
    | Succeed(c: CallerId, resolved: Address)
    | Fail(c: CallerId)
    | Forget(c: CallerId)
    | Cancel(c: CallerId)
    | Invalidate(name: Name)
    | Pass(dt: nat)

  predicate Working(p: Phase) {
    p.Locked? || p.Loaded? || p.Resolving?
  }

  predicate Ready(t: Table, c: CallerId) {
    c in t.callers && t.callers[c].slot in t.slots
  }

  function SlotOf(t: Table, c: CallerId): Slot
    requires Ready(t, c)
  {
    t.slots[t.callers[c].slot]
  }

  predicate Enabled(s: State, a: Action) {
    var t := s.table;
    match a
    case Arrive(c, _) => c !in t.callers
    case Lock(c) => Ready(t, c) && t.callers[c].phase.Waiting? && SlotOf(t, c).holder.None?
    case Load(c) => Ready(t, c) && t.callers[c].phase.Locked?
    case Look(c) => Ready(t, c) && t.callers[c].phase.Loaded?
    case Succeed(c, _) => Ready(t, c) && t.callers[c].phase.Resolving?
    case Fail(c) => Ready(t, c) && t.callers[c].phase.Resolving?
    case Forget(c) => Ready(t, c) && t.callers[c].phase.Forgetting?
    case Cancel(c) => Ready(t, c) && !t.callers[c].phase.Forgetting?
    case Invalidate(_) => true
    case Pass(_) => true
  }

  /** Someone holds a reference to the slot. */
  predicate InUse(t: Table, id: SlotId) {
    exists c :: c in t.callers && t.callers[c].slot == id
  }

  /** The entry is of the given generation and within its TTL. */
  predicate Usable(entry: Option<Entry>, generation: nat, now: Time, ttl: nat) {
    entry.Some? && entry.value.generation == generation && now < entry.value.storedAt + ttl
  }

  /** The slots a sweep keeps. */
  function Live(t: Table, now: Time, ttl: nat): set<SlotId> {
    set id | id in t.slots && (InUse(t, id) || Usable(t.slots[id].entry, t.slots[id].generation, now, ttl))
  }

  function Last(stamps: Stamps, name: Name): int {
    if name in stamps then stamps[name] else -1
  }

  predicate Absent(m: Names, name: Name) {
    name !in m
  }

  /** A new caller takes a reference to slot `id`, created if it is new. */
  function Join(t: Table, c: CallerId, name: Name, id: SlotId, overflow: bool): Table {
    var callers := t.callers[c := Caller(name, id, Waiting, overflow)];
    if id == t.next then Table(t.slots[id := Slot(0, None, None)], callers, t.next + 1)
    else t.(callers := callers)
  }

  /** A caller changes its slot, and moves to a new phase or leaves. */
  function Update(t: Table, c: CallerId, slot: Slot, phase: Option<Phase>): Table
    requires c in t.callers
  {
    var k := t.callers[c];
    t.(slots := t.slots[k.slot := slot],
       callers := if phase.Some? then t.callers[c := k.(phase := phase.value)] else t.callers - {c})
  }

  function Released(slot: Slot, c: CallerId): Slot {
    if slot.holder == Some(c) then slot.(holder := None) else slot
  }

  /** Leave, releasing the lock and dropping the reference. */
  function Leave(t: Table, c: CallerId): Table
    requires Ready(t, c)
  {
    Update(t, c, Released(SlotOf(t, c), c), None)
  }

  function ArriveStep(s: State, c: CallerId, name: Name, ttl: nat): State {
    var (names, id) := GetOrInsert(s.names, name, s.now, Live(s.table, s.now, ttl), s.table.next);
    s.(names := names, table := Join(s.table, c, name, id, Absent(names.slots, name)))
  }

  function HitOf(s: State, c: CallerId): Hit
    requires Ready(s.table, c) && SlotOf(s.table, c).entry.Some? && s.table.callers[c].phase.Loaded?
  {
    var e := SlotOf(s.table, c).entry.value;
    var k := s.table.callers[c];
    Hit(k.name, if s.now < e.storedAt then 0 else s.now - e.storedAt, e.begun, k.phase.last)
  }

  /** A usable entry is returned; otherwise a resolve begins, under the generation read before. */
  function LookStep(s: State, c: CallerId, ttl: nat): State
    requires Ready(s.table, c) && s.table.callers[c].phase.Loaded?
  {
    var slot := SlotOf(s.table, c);
    var generation := s.table.callers[c].phase.generation;
    if Usable(slot.entry, generation, s.now, ttl) then
      s.(table := Leave(s.table, c), hits := s.hits + [HitOf(s, c)])
    else s.(table := Update(s.table, c, slot, Some(Resolving(generation, s.tick))))
  }

  function Stored(t: Table, c: CallerId, resolved: Address, now: Time): Slot
    requires Ready(t, c) && t.callers[c].phase.Resolving?
  {
    var p := t.callers[c].phase;
    Released(SlotOf(t, c), c).(entry := Some(Entry(resolved, now, p.generation, p.begun)))
  }

  /** Drop the name if this caller and the map are the only holders of its slot. */
  function ForgetStep(s: State, c: CallerId): State
    requires Ready(s.table, c)
  {
    var k := s.table.callers[c];
    var t := Update(s.table, c, SlotOf(s.table, c), None);
    s.(table := t, names := if InUse(t, k.slot) then s.names else Remove(s.names, k.name, k.slot))
  }

  function Bump(m: Names, t: Table, name: Name): Table {
    if name in m && m[name] in t.slots then
      var slot := t.slots[m[name]];
      t.(slots := t.slots[m[name] := slot.(generation := slot.generation + 1)])
    else t
  }

  function Act(s: State, a: Action, ttl: nat): State
    requires Enabled(s, a)
  {
    var t := s.table;
    match a
    case Arrive(c, name) => ArriveStep(s, c, name, ttl)
    case Lock(c) => s.(table := Update(t, c, SlotOf(t, c).(holder := Some(c)), Some(Locked)))
    case Load(c) =>
      var last := Last(s.invalidated, t.callers[c].name);
      s.(table := Update(t, c, SlotOf(t, c), Some(Loaded(SlotOf(t, c).generation, last))))
    case Look(c) => LookStep(s, c, ttl)
    case Succeed(c, resolved) => s.(table := Update(t, c, Stored(t, c, resolved, s.now), None))
    case Fail(c) => s.(table := Update(t, c, Released(SlotOf(t, c), c), Some(Forgetting)))
    case Forget(c) => ForgetStep(s, c)
    case Cancel(c) => s.(table := Leave(t, c))
    case Invalidate(name) =>
      s.(table := Bump(s.names.slots, t, name), invalidated := s.invalidated[name := s.tick])
    case Pass(dt) => s.(now := s.now + dt)
  }

  function Apply(s: State, a: Action, ttl: nat): State
    requires Enabled(s, a)
  {
    Act(s, a, ttl).(tick := s.tick + 1)
  }

  /** The state after a run, unless some step of it cannot be taken. */
  function Run(s: State, actions: seq<Action>, ttl: nat): Option<State>
    decreases |actions|
  {
    if |actions| == 0 then Some(s)
    else if !Enabled(s, actions[0]) then None
    else Run(Apply(s, actions[0], ttl), actions[1..], ttl)
  }

  // ----- The invariant -----

  /** Every slot referred to exists, and no slot serves two names. */
  ghost predicate Linked(m: Names, t: Table) {
    && (forall id :: id in t.slots ==> id < t.next)
    && (forall n :: n in m ==> m[n] in t.slots)
    && (forall n, n' :: n in m && n' in m && m[n] == m[n'] ==> n == n')
    && (forall c :: c in t.callers ==> Ready(t, c))
  }

  /** The caller's slot is the one mapped for its name. */
  ghost predicate Mapped(m: Names, k: Caller) {
    k.name in m && m[k.name] == k.slot
  }

  /** The caller's slot is an overflow slot: unmapped, empty, and nobody else's. */
  ghost predicate Private(m: Names, t: Table, c: CallerId)
    requires Ready(t, c)
  {
    var id := t.callers[c].slot;
    && (forall n :: n in m ==> m[n] != id)
    && (forall d :: d in t.callers && t.callers[d].slot == id ==> d == c)
    && t.slots[id].entry.None?
  }

  /** A caller keeps the mapped slot of its name for as long as it is there; only one turned away
      from a full map has a slot of its own. */
  ghost predicate HeldOk(m: Names, t: Table, c: CallerId)
    requires Ready(t, c)
  {
    if t.callers[c].overflow then Private(m, t, c) else Mapped(m, t.callers[c])
  }

  ghost predicate Held(m: Names, t: Table)
    requires Linked(m, t)
  {
    forall c :: c in t.callers ==> HeldOk(m, t, c)
  }

  ghost predicate HolderOk(t: Table, id: SlotId, c: CallerId) {
    c in t.callers && t.callers[c].slot == id && Working(t.callers[c].phase)
  }

  /** The entry lock is held exactly by the caller working under it. */
  ghost predicate LocksOk(t: Table) {
    && (forall id :: id in t.slots && t.slots[id].holder.Some? ==> HolderOk(t, id, t.slots[id].holder.value))
    && (forall c :: Ready(t, c) && Working(t.callers[c].phase) ==> SlotOf(t, c).holder == Some(c))
  }

  /** An entry of the current generation comes from a resolve begun after the last invalidation. */
  ghost predicate EntryOk(slot: Slot, now: Time, last: int) {
    slot.entry.Some? ==>
      var e := slot.entry.value;
      && e.generation <= slot.generation && e.storedAt <= now
      && (e.generation == slot.generation ==> last < e.begun)
  }

  /** A resolve in flight under the current generation began after the last invalidation, and an
      entry of the generation a caller has read began after the last invalidation before that. */
  ghost predicate ResolveOk(slot: Slot, p: Phase, mapped: bool, last: int) {
    match p
    case Loaded(g, before) =>
      && g <= slot.generation
      && (mapped && slot.entry.Some? && slot.entry.value.generation == g ==> before < slot.entry.value.begun)
    case Resolving(g, begun) =>
      && g <= slot.generation
      && (mapped && g == slot.generation ==> last < begun)
    case _ => true
  }

  ghost predicate EntriesOk(m: Names, t: Table, now: Time, stamps: Stamps) {
    forall n :: n in m && m[n] in t.slots ==> EntryOk(t.slots[m[n]], now, Last(stamps, n))
  }

  ghost predicate ResolvesOk(m: Names, t: Table, stamps: Stamps) {
    forall c :: Ready(t, c) ==>
      ResolveOk(SlotOf(t, c), t.callers[c].phase, Mapped(m, t.callers[c]), Last(stamps, t.callers[c].name))
  }

  ghost predicate Stamped(stamps: Stamps, tick: nat) {
    forall n :: n in stamps ==> stamps[n] < tick
  }

  ghost predicate HitOk(h: Hit, ttl: nat) {
    h.age < ttl && h.invalidated < h.begun
  }

  ghost predicate Shared(m: Names, t: Table, now: Time, stamps: Stamps) {
    && Linked(m, t) && Held(m, t) && LocksOk(t) && EntriesOk(m, t, now, stamps) && ResolvesOk(m, t, stamps)
  }

  ghost predicate Inv(s: State, ttl: nat) {
    && Shared(s.names.slots, s.table, s.now, s.invalidated)
    && Bounded(s.names, s.now)
    && Stamped(s.invalidated, s.tick)
    && forall i :: 0 <= i < |s.hits| ==> HitOk(s.hits[i], ttl)
  }

  // ----- A caller's own steps -----

  /** What a caller may do to its slot: keep the generation, keep or store the entry of its own
      resolve on leaving, and hold the lock exactly while working. */
  ghost predicate Fair(t: Table, c: CallerId, slot: Slot, phase: Option<Phase>, now: Time, last: int)
    requires Ready(t, c)
  {
    var k := t.callers[c];
    var was := SlotOf(t, c);
    var works := phase.Some? && Working(phase.value);
    && slot.generation == was.generation
    && (works ==> was.holder.None? || was.holder == Some(c))
    && slot.holder == (if works then Some(c) else if was.holder == Some(c) then None else was.holder)
    && (slot.entry == was.entry ||
        (phase.None? && k.phase.Resolving? && slot.entry.Some?
         && slot.entry.value.(resolved := 0) == Entry(0, now, k.phase.generation, k.phase.begun)))
    && (phase.Some? && phase.value.Loaded? ==> phase.value == Loaded(was.generation, last))
    && (phase.Some? && phase.value.Resolving? ==>
          phase.value.generation <= was.generation && last < phase.value.begun)
  }

  lemma {:induction false} UpdateLinked(m: Names, t: Table, c: CallerId, slot: Slot, phase: Option<Phase>)
    requires Linked(m, t) && c in t.callers
    ensures Linked(m, Update(t, c, slot, phase))
  {
  }

  lemma {:induction false} UpdateHeld(m: Names, t: Table, c: CallerId, slot: Slot, phase: Option<Phase>, now: Time,
                                      last: int)
    requires Linked(m, t) && Held(m, t) && c in t.callers && Fair(t, c, slot, phase, now, last)
    ensures Linked(m, Update(t, c, slot, phase)) && Held(m, Update(t, c, slot, phase))
  {
    UpdateLinked(m, t, c, slot, phase);
    var t' := Update(t, c, slot, phase);
    forall d | d in t'.callers ensures HeldOk(m, t', d) {
      assert HeldOk(m, t, d);
      assert t'.callers[d].name == t.callers[d].name && t'.callers[d].slot == t.callers[d].slot;
    }
  }

  lemma {:induction false} UpdateLocks(m: Names, t: Table, c: CallerId, slot: Slot, phase: Option<Phase>, now: Time,
                                       last: int)
    requires Linked(m, t) && LocksOk(t) && c in t.callers && Fair(t, c, slot, phase, now, last)
    ensures LocksOk(Update(t, c, slot, phase))
  {
    var t' := Update(t, c, slot, phase);
    forall id | id in t'.slots && t'.slots[id].holder.Some? ensures HolderOk(t', id, t'.slots[id].holder.value) {
      assert id in t.slots;
    }
    forall d | Ready(t', d) && Working(t'.callers[d].phase) ensures SlotOf(t', d).holder == Some(d) {
      if d != c {
        assert Ready(t, d) && SlotOf(t, d).holder == Some(d);
      }
    }
  }

  lemma {:induction false} UpdateEntries(m: Names, t: Table, c: CallerId, slot: Slot, phase: Option<Phase>, now: Time,
                                         stamps: Stamps)
    requires Linked(m, t) && Held(m, t) && c in t.callers
             && Fair(t, c, slot, phase, now, Last(stamps, t.callers[c].name))
    requires EntriesOk(m, t, now, stamps) && ResolvesOk(m, t, stamps)
    ensures EntriesOk(m, Update(t, c, slot, phase), now, stamps)
  {
    var t' := Update(t, c, slot, phase);
    forall n | n in m && m[n] in t'.slots ensures EntryOk(t'.slots[m[n]], now, Last(stamps, n)) {
      assert EntryOk(t.slots[m[n]], now, Last(stamps, n));
      if m[n] == t.callers[c].slot {
        assert HeldOk(m, t, c) && Mapped(m, t.callers[c]) && Ready(t, c);
      }
    }
  }

  lemma {:induction false} UpdateResolves(m: Names, t: Table, c: CallerId, slot: Slot, phase: Option<Phase>, now: Time,
                                          stamps: Stamps)
    requires Linked(m, t) && LocksOk(t) && c in t.callers
    requires Fair(t, c, slot, phase, now, Last(stamps, t.callers[c].name))
    requires EntriesOk(m, t, now, stamps) && ResolvesOk(m, t, stamps)
    ensures ResolvesOk(m, Update(t, c, slot, phase), stamps)
  {
    var t' := Update(t, c, slot, phase);
    forall d | Ready(t', d)
      ensures ResolveOk(SlotOf(t', d), t'.callers[d].phase, Mapped(m, t'.callers[d]), Last(stamps, t'.callers[d].name))
    {
      assert Ready(t, d) && Ready(t, c) && SlotOf(t', d).generation == SlotOf(t, d).generation;
      if d == c {
        assert Mapped(m, t.callers[c]) ==> EntryOk(SlotOf(t, c), now, Last(stamps, t.callers[c].name));
      }
    }
  }

  lemma {:induction false} UpdateKeeps(m: Names, t: Table, c: CallerId, slot: Slot, phase: Option<Phase>, now: Time,
                                       stamps: Stamps)
    requires Shared(m, t, now, stamps) && c in t.callers && Ready(t, c)
    requires Fair(t, c, slot, phase, now, Last(stamps, t.callers[c].name))
    ensures Shared(m, Update(t, c, slot, phase), now, stamps)
  {
    hide Linked, Held, LocksOk, EntriesOk, ResolvesOk, Fair, Update;
    UpdateHeld(m, t, c, slot, phase, now, Last(stamps, t.callers[c].name));
    UpdateLocks(m, t, c, slot, phase, now, Last(stamps, t.callers[c].name));
    UpdateEntries(m, t, c, slot, phase, now, stamps);
    UpdateResolves(m, t, c, slot, phase, now, stamps);
  }

  // ----- Time, invalidation, arrival and forgetting -----

  lemma {:induction false} PassKeeps(m: Names, t: Table, now: Time, now': Time, stamps: Stamps)
    requires Shared(m, t, now, stamps) && now <= now'
    ensures Shared(m, t, now', stamps)
  {
    hide Linked, Held, LocksOk, ResolvesOk;
  }

  lemma {:induction false} BumpHeld(m: Names, t: Table, name: Name)
    requires Linked(m, t) && Held(m, t)
    ensures Linked(m, Bump(m, t, name)) && Held(m, Bump(m, t, name))
  {
    var t' := Bump(m, t, name);
    assert Linked(m, t');
    forall c | c in t'.callers ensures HeldOk(m, t', c) {
      assert HeldOk(m, t, c);
    }
  }

  lemma {:induction false} BumpLocks(m: Names, t: Table, name: Name)
    requires LocksOk(t)
    ensures LocksOk(Bump(m, t, name))
  {
    var t' := Bump(m, t, name);
    assert forall id :: id in t.slots ==> t'.slots[id].holder == t.slots[id].holder;
    forall d | Ready(t', d) && Working(t'.callers[d].phase) ensures SlotOf(t', d).holder == Some(d) {
      assert Ready(t, d);
    }
  }

  /** The bump outdates the entry and every resolve in flight for the name. */
  lemma {:induction false} BumpOutdates(m: Names, t: Table, now: Time, name: Name, stamps: Stamps, tick: nat)
    requires Linked(m, t) && EntriesOk(m, t, now, stamps) && ResolvesOk(m, t, stamps)
    ensures EntriesOk(m, Bump(m, t, name), now, stamps[name := tick])
    ensures ResolvesOk(m, Bump(m, t, name), stamps[name := tick])
  {
    var t', stamps' := Bump(m, t, name), stamps[name := tick];
    forall n | n in m && m[n] in t'.slots ensures EntryOk(t'.slots[m[n]], now, Last(stamps', n)) {
      assert EntryOk(t.slots[m[n]], now, Last(stamps, n));
    }
    forall d | Ready(t', d)
      ensures ResolveOk(SlotOf(t', d), t'.callers[d].phase, Mapped(m, t'.callers[d]), Last(stamps', t'.callers[d].name))
    {
      assert Ready(t, d) && t'.callers[d] == t.callers[d];
    }
  }

  /** Nothing known about the name before now is usable, at any time under any TTL: neither its entry,
      nor what any resolve in flight or about to start under a generation already read will store. */
  ghost predicate Outdated(m: Names, t: Table, name: Name) {
    name in m && m[name] in t.slots ==>
      var slot := t.slots[m[name]];
      && (forall now: Time, ttl: nat :: !Usable(slot.entry, slot.generation, now, ttl))
      && (forall c :: Ready(t, c) && t.callers[c].slot == m[name] ==> ReadEarlier(t.callers[c].phase, slot.generation))
  }

  ghost predicate ReadEarlier(p: Phase, generation: nat) {
    p.Loaded? || p.Resolving? ==> p.generation < generation
  }

  lemma {:induction false} InvalidateOutdates(s: State, name: Name, ttl: nat)
    requires Inv(s, ttl)
    ensures Outdated(s.names.slots, Apply(s, Invalidate(name), ttl).table, name)
  {
    var m, t := s.names.slots, s.table;
    if name in m && m[name] in t.slots {
      assert EntryOk(t.slots[m[name]], s.now, Last(s.invalidated, name));
      forall c | Ready(t, c) && t.callers[c].slot == m[name]
        ensures ReadEarlier(t.callers[c].phase, t.slots[m[name]].generation + 1)
      {
        assert ResolveOk(SlotOf(t, c), t.callers[c].phase, Mapped(m, t.callers[c]),
                         Last(s.invalidated, t.callers[c].name));
      }
      hide Inv;
      var t' := Bump(m, t, name);
      forall c | Ready(t', c) && t'.callers[c].slot == m[name]
        ensures ReadEarlier(t'.callers[c].phase, t'.slots[m[name]].generation)
      {
        assert Ready(t, c);
      }
    }
  }

  lemma {:induction false} BumpKeeps(m: Names, t: Table, now: Time, name: Name, stamps: Stamps, tick: nat)
    requires Shared(m, t, now, stamps)
    ensures Shared(m, Bump(m, t, name), now, stamps[name := tick])
  {
    hide Linked, Held, LocksOk, EntriesOk, ResolvesOk, Bump;
    BumpHeld(m, t, name);
    BumpLocks(m, t, name);
    BumpOutdates(m, t, now, name, stamps, tick);
  }

  /** What a lookup may do to the map, given that every slot in use is live. */
  ghost predicate Joins(m: Names, m': Names, t: Table, name: Name, id: SlotId) {
    && (forall n :: n in m && InUse(t, m[n]) ==> n in m' && m'[n] == m[n])
    && (forall n :: n in m' ==> (n in m && m'[n] == m[n]) || (n == name && m'[n] == t.next && id == t.next))
    && (if name in m then m' == m && id == m[name] else id == t.next && (name in m' ==> m'[name] == t.next))
  }

  lemma {:induction false} ArriveJoins(s: State, c: CallerId, name: Name, ttl: nat)
    requires Linked(s.names.slots, s.table)
    ensures var (names, id) := GetOrInsert(s.names, name, s.now, Live(s.table, s.now, ttl), s.table.next);
            Joins(s.names.slots, names.slots, s.table, name, id)
  {
    GetOrInsertMaps(s.names, name, s.now, Live(s.table, s.now, ttl), s.table.next);
    assert forall id :: id in s.table.slots && InUse(s.table, id) ==> id in Live(s.table, s.now, ttl);
    hide GetOrInsert, Live, InUse;
  }

  lemma {:induction false} JoinLinked(m: Names, m': Names, t: Table, c: CallerId, name: Name, id: SlotId)
    requires Linked(m, t) && c !in t.callers && Joins(m, m', t, name, id)
    ensures Linked(m', Join(t, c, name, id, Absent(m', name)))
  {
    hide InUse;
  }

  lemma {:induction false} StaysMapped(m: Names, m': Names, t: Table, k: Caller, name: Name, id: SlotId)
    requires Joins(m, m', t, name, id) && Mapped(m, k) && InUse(t, k.slot)
    ensures Mapped(m', k)
  {
    hide InUse;
  }

  lemma {:induction false} StaysPrivate(m: Names, m': Names, t: Table, c: CallerId, name: Name, id: SlotId, d: CallerId)
    requires Linked(m, t) && c !in t.callers && Joins(m, m', t, name, id) && d in t.callers && Private(m, t, d)
    ensures Linked(m', Join(t, c, name, id, Absent(m', name))) && Private(m', Join(t, c, name, id, Absent(m', name)), d)
  {
    JoinLinked(m, m', t, c, name, id);
    hide InUse;
  }

  lemma {:induction false} NewIsHeld(m: Names, m': Names, t: Table, c: CallerId, name: Name, id: SlotId)
    requires Linked(m, t) && c !in t.callers && Joins(m, m', t, name, id)
    ensures Linked(m', Join(t, c, name, id, Absent(m', name))) && HeldOk(m', Join(t, c, name, id, Absent(m', name)), c)
  {
    JoinLinked(m, m', t, c, name, id);
    hide InUse;
  }

  lemma {:induction false} JoinHeld(m: Names, m': Names, t: Table, c: CallerId, name: Name, id: SlotId)
    requires Linked(m, t) && Held(m, t) && c !in t.callers && Joins(m, m', t, name, id)
    ensures Linked(m', Join(t, c, name, id, Absent(m', name))) && Held(m', Join(t, c, name, id, Absent(m', name)))
  {
    NewIsHeld(m, m', t, c, name, id);
    hide Joins, Linked, Private, Mapped;
    var t' := Join(t, c, name, id, Absent(m', name));
    forall d | d in t'.callers ensures Ready(t', d) && HeldOk(m', t', d) {
      LinkedReady(m', t', d);
      if d != c {
        LinkedReady(m, t, d);
        assert t'.callers[d] == t.callers[d] && HeldOk(m, t, d);
        if t.callers[d].overflow {
          StaysPrivate(m, m', t, c, name, id, d);
        } else {
          assert InUse(t, t.callers[d].slot);
          StaysMapped(m, m', t, t.callers[d], name, id);
        }
      }
    }
  }

  lemma {:induction false} LinkedReady(m: Names, t: Table, c: CallerId)
    requires Linked(m, t) && c in t.callers
    ensures Ready(t, c)
  {
  }

  lemma {:induction false} JoinLocks(m: Names, m': Names, t: Table, c: CallerId, name: Name, id: SlotId)
    requires Linked(m, t) && LocksOk(t) && c !in t.callers && Joins(m, m', t, name, id)
    ensures LocksOk(Join(t, c, name, id, Absent(m', name)))
  {
    var t' := Join(t, c, name, id, Absent(m', name));
    forall i | i in t'.slots && t'.slots[i].holder.Some? ensures HolderOk(t', i, t'.slots[i].holder.value) {
      assert i in t.slots;
    }
    forall d | Ready(t', d) && Working(t'.callers[d].phase) ensures SlotOf(t', d).holder == Some(d) {
      assert Ready(t, d);
    }
  }

  lemma {:induction false} JoinGenerations(m: Names, m': Names, t: Table, c: CallerId, name: Name, id: SlotId,
                                           now: Time, stamps: Stamps)
    requires Linked(m, t) && c !in t.callers && Joins(m, m', t, name, id)
    requires EntriesOk(m, t, now, stamps) && ResolvesOk(m, t, stamps)
    ensures EntriesOk(m', Join(t, c, name, id, Absent(m', name)), now, stamps)
            && ResolvesOk(m', Join(t, c, name, id, Absent(m', name)), stamps)
  {
    var t' := Join(t, c, name, id, Absent(m', name));
    forall n | n in m' && m'[n] in t'.slots ensures EntryOk(t'.slots[m'[n]], now, Last(stamps, n)) {
      if n in m {
        assert EntryOk(t.slots[m[n]], now, Last(stamps, n));
      }
    }
    forall d | Ready(t', d)
      ensures ResolveOk(SlotOf(t', d), t'.callers[d].phase, Mapped(m', t'.callers[d]), Last(stamps, t'.callers[d].name))
    {
      if d != c {
        assert Ready(t, d) && t'.callers[d] == t.callers[d];
        assert Mapped(m', t.callers[d]) ==> Mapped(m, t.callers[d]);
      }
    }
  }

  lemma {:induction false} JoinKeeps(m: Names, m': Names, t: Table, c: CallerId, name: Name, id: SlotId, now: Time,
                                     stamps: Stamps)
    requires Shared(m, t, now, stamps) && c !in t.callers && Joins(m, m', t, name, id)
    ensures Shared(m', Join(t, c, name, id, Absent(m', name)), now, stamps)
  {
    hide Linked, Held, LocksOk, EntriesOk, ResolvesOk, Join, Joins;
    JoinHeld(m, m', t, c, name, id);
    JoinLocks(m, m', t, c, name, id);
    JoinGenerations(m, m', t, c, name, id, now, stamps);
  }

  lemma {:induction false} DropHeld(m: Names, t: Table, name: Name)
    requires Linked(m, t) && Held(m, t) && name in m && !InUse(t, m[name])
    ensures Linked(m - {name}, t) && Held(m - {name}, t)
  {
    forall c | c in t.callers ensures HeldOk(m - {name}, t, c) {
      assert HeldOk(m, t, c);
    }
  }

  lemma {:induction false} DropGenerations(m: Names, t: Table, name: Name, now: Time, stamps: Stamps)
    requires EntriesOk(m, t, now, stamps) && ResolvesOk(m, t, stamps)
    ensures EntriesOk(m - {name}, t, now, stamps) && ResolvesOk(m - {name}, t, stamps)
  {
    forall d | Ready(t, d)
      ensures ResolveOk(SlotOf(t, d), t.callers[d].phase, Mapped(m - {name}, t.callers[d]),
                        Last(stamps, t.callers[d].name))
    {
      assert Mapped(m - {name}, t.callers[d]) ==> Mapped(m, t.callers[d]);
    }
  }

  lemma {:induction false} DropKeeps(m: Names, t: Table, name: Name, now: Time, stamps: Stamps)
    requires Shared(m, t, now, stamps) && name in m && !InUse(t, m[name])
    ensures Shared(m - {name}, t, now, stamps)
  {
    hide Linked, Held, LocksOk, EntriesOk, ResolvesOk, InUse;
    DropHeld(m, t, name);
    DropGenerations(m, t, name, now, stamps);
  }

  // ----- Every step, and so every run -----

  lemma {:induction false} StampsAge(stamps: Stamps, tick: nat, name: Name)
    requires Stamped(stamps, tick)
    ensures Stamped(stamps, tick + 1) && Stamped(stamps[name := tick], tick + 1) && Last(stamps, name) < tick
  {
  }

  lemma {:induction false} OwnStep(s: State, c: CallerId, slot: Slot, phase: Option<Phase>, ttl: nat)
    requires Inv(s, ttl) && Ready(s.table, c)
    requires Fair(s.table, c, slot, phase, s.now, Last(s.invalidated, s.table.callers[c].name))
    ensures Inv(s.(table := Update(s.table, c, slot, phase), tick := s.tick + 1), ttl)
  {
    hide Shared, Bounded, Stamped, Fair, Update;
    UpdateKeeps(s.names.slots, s.table, c, slot, phase, s.now, s.invalidated);
    StampsAge(s.invalidated, s.tick, "");
  }

  lemma {:induction false} WorkerHolds(m: Names, t: Table, now: Time, stamps: Stamps, c: CallerId)
    requires Shared(m, t, now, stamps) && Ready(t, c)
    ensures Working(t.callers[c].phase) <==> SlotOf(t, c).holder == Some(c)
    ensures t.callers[c].phase.Loaded? ==> t.callers[c].phase.generation <= SlotOf(t, c).generation
  {
    hide Held, EntriesOk;
  }

  lemma {:induction false} LoadKeeps(s: State, a: Action, ttl: nat)
    requires Inv(s, ttl) && Enabled(s, a) && (a.Lock? || a.Load?)
    ensures Inv(Apply(s, a, ttl), ttl)
  {
    hide Shared, Bounded, Stamped;
    var slot := SlotOf(s.table, a.c);
    WorkerHolds(s.names.slots, s.table, s.now, s.invalidated, a.c);
    hide Inv;
    if a.Lock? {
      OwnStep(s, a.c, slot.(holder := Some(a.c)), Some(Locked), ttl);
    } else {
      var last := Last(s.invalidated, s.table.callers[a.c].name);
      OwnStep(s, a.c, slot, Some(Loaded(slot.generation, last)), ttl);
    }
  }

  /** A hit is fresh, and its resolve began after the invalidations before its generation read. */
  lemma {:induction false} HitsAreGood(s: State, c: CallerId, ttl: nat)
    requires Inv(s, ttl) && Enabled(s, Look(c))
    requires Usable(SlotOf(s.table, c).entry, s.table.callers[c].phase.generation, s.now, ttl)
    ensures HitOk(HitOf(s, c), ttl)
  {
    var m, k := s.names.slots, s.table.callers[c];
    assert HeldOk(m, s.table, c) && Mapped(m, k);
    assert EntryOk(SlotOf(s.table, c), s.now, Last(s.invalidated, k.name));
    assert ResolveOk(SlotOf(s.table, c), k.phase, Mapped(m, k), Last(s.invalidated, k.name));
  }

  lemma {:induction false} LookKeeps(s: State, c: CallerId, ttl: nat)
    requires Inv(s, ttl) && Enabled(s, Look(c))
    ensures Inv(Apply(s, Look(c), ttl), ttl)
  {
    hide Shared, Bounded, Stamped, HitOk;
    var slot, k := SlotOf(s.table, c), s.table.callers[c];
    WorkerHolds(s.names.slots, s.table, s.now, s.invalidated, c);
    StampsAge(s.invalidated, s.tick, k.name);
    if Usable(slot.entry, k.phase.generation, s.now, ttl) {
      HitsAreGood(s, c, ttl);
      OwnStep(s, c, Released(slot, c), None, ttl);
    } else {
      hide Inv;
      OwnStep(s, c, slot, Some(Resolving(k.phase.generation, s.tick)), ttl);
    }
  }

  lemma {:induction false} EndKeeps(s: State, a: Action, ttl: nat)
    requires Inv(s, ttl) && Enabled(s, a) && (a.Succeed? || a.Fail? || a.Cancel?)
    ensures Inv(Apply(s, a, ttl), ttl)
  {
    hide Shared, Bounded, Stamped, Inv;
    var slot := SlotOf(s.table, a.c);
    if a.Succeed? {
      OwnStep(s, a.c, Stored(s.table, a.c, a.resolved, s.now), None, ttl);
    } else if a.Fail? {
      OwnStep(s, a.c, Released(slot, a.c), Some(Forgetting), ttl);
    } else {
      OwnStep(s, a.c, Released(slot, a.c), None, ttl);
    }
  }

  lemma {:induction false} ForgetKeeps(s: State, c: CallerId, ttl: nat)
    requires Inv(s, ttl) && Enabled(s, Forget(c))
    ensures Inv(Apply(s, Forget(c), ttl), ttl)
  {
    hide Shared, Bounded, Stamped, Update, InUse;
    var k, slot := s.table.callers[c], SlotOf(s.table, c);
    WorkerHolds(s.names.slots, s.table, s.now, s.invalidated, c);
    var t := Update(s.table, c, slot, None);
    OwnStep(s, c, slot, None, ttl);
    RemoveBounded(s.names, k.name, k.slot, s.now);
    if !InUse(t, k.slot) && k.name in s.names.slots && s.names.slots[k.name] == k.slot {
      DropKeeps(s.names.slots, t, k.name, s.now, s.invalidated);
    }
  }

  lemma {:induction false} ArriveKeeps(s: State, c: CallerId, name: Name, ttl: nat)
    requires Inv(s, ttl) && c !in s.table.callers
    ensures Inv(Apply(s, Arrive(c, name), ttl), ttl)
  {
    ArriveJoins(s, c, name, ttl);
    hide Shared, Bounded, Stamped, Joins, Join, GetOrInsert, Live;
    var (names, id) := GetOrInsert(s.names, name, s.now, Live(s.table, s.now, ttl), s.table.next);
    GetOrInsertBounded(s.names, name, s.now, Live(s.table, s.now, ttl), s.table.next);
    JoinKeeps(s.names.slots, names.slots, s.table, c, name, id, s.now, s.invalidated);
    StampsAge(s.invalidated, s.tick, name);
  }

  lemma {:induction false} OutsideKeeps(s: State, a: Action, ttl: nat)
    requires Inv(s, ttl) && (a.Invalidate? || a.Pass?)
    ensures Inv(Apply(s, a, ttl), ttl)
  {
    hide Shared, Stamped, Bump;
    if a.Invalidate? {
      BumpKeeps(s.names.slots, s.table, s.now, a.name, s.invalidated, s.tick);
      StampsAge(s.invalidated, s.tick, a.name);
    } else {
      PassKeeps(s.names.slots, s.table, s.now, s.now + a.dt, s.invalidated);
      StampsAge(s.invalidated, s.tick, "");
    }
  }

  lemma {:induction false} StepKeeps(s: State, a: Action, ttl: nat)
    requires Inv(s, ttl) && Enabled(s, a)
    ensures Inv(Apply(s, a, ttl), ttl)
  {
    hide Inv, Apply;
    if a.Arrive? {
      ArriveKeeps(s, a.c, a.name, ttl);
    } else if a.Lock? || a.Load? {
      LoadKeeps(s, a, ttl);
    } else if a.Look? {
      LookKeeps(s, a.c, ttl);
    } else if a.Succeed? || a.Fail? || a.Cancel? {
      EndKeeps(s, a, ttl);
    } else if a.Forget? {
      ForgetKeeps(s, a.c, ttl);
    } else {
      OutsideKeeps(s, a, ttl);
    }
  }

  lemma {:induction false} RunKeeps(s: State, actions: seq<Action>, ttl: nat)
    requires Inv(s, ttl) && Run(s, actions, ttl).Some?
    ensures Inv(Run(s, actions, ttl).value, ttl)
    decreases |actions|
  {
    hide Inv, Enabled, Apply;
    if |actions| > 0 {
      StepKeeps(s, actions[0], ttl);
      RunKeeps(Apply(s, actions[0], ttl), actions[1..], ttl);
    }
  }

  /** The caller is resolving its name, and was not turned away from a full map. */
  predicate InFlight(callers: map<CallerId, Caller>, c: CallerId) {
    c in callers && callers[c].phase.Resolving? && !callers[c].overflow
  }

  /** A caller is turned away exactly when its name is not mapped and other names fill the map,
      after the sweep if there was one; otherwise it gets the slot mapped for its name. */
  lemma {:induction false} OverflowOnlyWhenFull(s: State, c: CallerId, name: Name, ttl: nat)
    requires Inv(s, ttl) && c !in s.table.callers
    ensures var s' := Apply(s, Arrive(c, name), ttl);
            && (s'.table.callers[c].overflow <==> name !in s.names.slots && |s'.names.slots - {name}| == MAX_SLOTS)
            && (!s'.table.callers[c].overflow ==> Mapped(s'.names.slots, s'.table.callers[c]))
  {
    ArriveKeeps(s, c, name, ttl);
    GetOrInsertFull(s.names, name, s.now, Live(s.table, s.now, ttl), s.table.next);
    hide Live, GetOrInsert, EntriesOk, ResolvesOk, LocksOk;
    var s' := Apply(s, Arrive(c, name), ttl);
    assert HeldOk(s'.names.slots, s'.table, c);
  }

  lemma {:induction false} HeldByName(m: Names, t: Table)
    requires Linked(m, t) && Held(m, t)
    ensures forall c, n :: c in t.callers && n in m && m[n] == t.callers[c].slot ==> n == t.callers[c].name
  {
    forall c, n | c in t.callers && n in m && m[n] == t.callers[c].slot ensures n == t.callers[c].name {
      assert HeldOk(m, t, c);
    }
  }

  lemma {:induction false} SingleFlight(m: Names, t: Table)
    requires Linked(m, t) && Held(m, t) && LocksOk(t)
    ensures forall c, d ::
              InFlight(t.callers, c) && InFlight(t.callers, d) && t.callers[c].name == t.callers[d].name ==> c == d
    ensures forall c :: c in t.callers && !t.callers[c].overflow ==> Mapped(m, t.callers[c])
  {
    assert forall c :: c in t.callers ==> HeldOk(m, t, c);
    forall c, d | InFlight(t.callers, c) && InFlight(t.callers, d) && t.callers[c].name == t.callers[d].name
      ensures c == d
    {
      assert Ready(t, c) && Ready(t, d);
      assert SlotOf(t, c).holder == Some(c);
    }
  }

  /** Whatever callers, failures, cancellations, invalidations and sweeps interleave: whoever
      holds a mapped slot holds the one mapped for its own name, and every caller but those turned
      away from a full map holds one; at most one resolve of a name is in flight apart from
      theirs; every hit is younger than the TTL and comes from a resolve begun after
      the invalidations before it, the map never exceeds its cap, sweeps below the cap have looked
      at no more than two slots per name inserted, and sweeps at the cap are an interval apart. */
  lemma {:induction false} CacheIsSafe(actions: seq<Action>, ttl: nat)
    requires Run(INIT, actions, ttl).Some?
    ensures var s := Run(INIT, actions, ttl).value;
            var m, callers := s.names.slots, s.table.callers;
            && (forall c, n :: c in callers && n in m && m[n] == callers[c].slot ==> n == callers[c].name)
            && (forall c :: c in callers && !callers[c].overflow ==> Mapped(m, callers[c]))
            && (forall c, d :: InFlight(callers, c) && InFlight(callers, d) && callers[c].name == callers[d].name ==>
                  c == d)
            && (forall h :: h in s.hits ==> h.age < ttl && h.invalidated < h.begun)
            && |m| <= s.names.nextPrune <= MAX_SLOTS
            && s.names.examined <= 2 * s.names.inserted
            && (forall i :: 0 < i < |s.names.capSweeps| ==>
                  s.names.capSweeps[i - 1] + PRUNE_AT_CAP_INTERVAL <= s.names.capSweeps[i])
  {
    assert Inv(INIT, ttl);
    RunKeeps(INIT, actions, ttl);
    var s := Run(INIT, actions, ttl).value;
    hide Run, Linked, Held, LocksOk, EntriesOk, ResolvesOk, InFlight;
    HeldByName(s.names.slots, s.table);
    SingleFlight(s.names.slots, s.table);
    assert forall h :: h in s.hits ==> HitOk(h, ttl);
  }
}
