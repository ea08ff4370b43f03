/** The unit registry: a directory of named units, one canonical ref per
    name, a subscription graph, and the dispatch rule of `Send`.

    Goroutines are not modelled: `Send` and `Start` return the `Handle` and
    `Init` invocations they launch instead of running them, so every rule of
    the dispatch protocol becomes a statement about the returned sequence. */
module Unit {
  import opened Common

  /** The identity of a unit value, which is what `==` compares when
      Subscribe and Unsubscribe scan the directory. */
  datatype UnitId = UnitId(serial: nat)

  /** `UnitDesc`: a registered name and the unit registered under it. */
  datatype UnitDesc = UnitDesc(name: string, proxy: UnitId)

  /** One invocation `unit.Handle(ctx, from, msg)` whose context has
      `Self() == self`; `target` is the name the unit was looked up under. */
  datatype Delivery<M> = Delivery(target: string, unit: UnitId, self: UnitRef, from: UnitRef, msg: M)

  /** One invocation `unit.Init(ctx)` whose context has `Self() == self`. */
  datatype InitCall = InitCall(unit: UnitId, self: UnitRef)

  function TargetOf<M>(d: Delivery<M>): string { d.target }
  function NameOf(d: UnitDesc): string { d.name }
  function InitNameOf(c: InitCall): string { c.self.name }

  function Targets<M>(ds: seq<Delivery<M>>): seq<string> { Project(ds, TargetOf) }

  /** The targets of a non-empty delivery sequence: the first one's and the rest's. */
  lemma TargetsSplit<M>(ds: seq<Delivery<M>>)
    requires ds != []
    ensures multiset(Targets(ds)) == multiset{ds[0].target} + multiset(Targets(ds[1..]))
  {
    assert Targets(ds) == [ds[0].target] + Targets(ds[1..]);
  }

  /** The subscribers recorded under `publisher` (a missing entry is Go's nil set). */
  function Members(subs: map<string, set<string>>, publisher: string): set<string>
  {
    if publisher in subs then subs[publisher] else {}
  }

  /** What Subscribe does to the graph: add `subscriber` under the key `publisher`. */
  function AddSubscriber(subs: map<string, set<string>>, publisher: string, subscriber: string): (r: map<string, set<string>>)
    ensures r.Keys == subs.Keys + {publisher}
    ensures Members(r, publisher) == Members(subs, publisher) + {subscriber}
    ensures forall p :: p != publisher ==> Members(r, p) == Members(subs, p)
  {
    subs[publisher := Members(subs, publisher) + {subscriber}]
  }

  /** What Unsubscribe does to the graph: remove `x` from the set under
      `key`, and drop the key once its set is empty. */
  function RemoveSubscriber(subs: map<string, set<string>>, key: string, x: string): (r: map<string, set<string>>)
    ensures Members(r, key) == Members(subs, key) - {x}
    ensures forall p :: p != key ==> Members(r, p) == Members(subs, p)
    ensures r.Keys <= subs.Keys
    ensures key in r <==> Members(subs, key) - {x} != {}
  {
    if key !in subs then subs
    else if subs[key] - {x} == {} then subs - {key}
    else subs[key := subs[key] - {x}]
  }

  /** `p` is the only name whose unit is `u`. */
  ghost predicate SoleOwner(units: map<string, UnitId>, u: UnitId, p: string)
  {
    p in units && units[p] == u && forall q :: q in units && units[q] == u ==> q == p
  }

  class Registry {
    var units: map<string, UnitId>
    var refs: map<string, UnitRef>
    var subscriptions: map<string, set<string>>
    /** The registry's shared context has been cancelled. */
    var cancelled: bool

    /** Every name has a unit and a canonical ref that carries that name and
        points back here; no subscriber set is kept empty. */
    ghost predicate Valid()
      reads this
    {
      && units.Keys == refs.Keys
      && (forall n :: n in refs ==> refs[n].name == n && refs[n].reg == this)
      && (forall p :: p in subscriptions ==> subscriptions[p] != {})
    }

    /** `NewRegistry`. */
    constructor ()
      ensures Valid()
      ensures units == map[] && refs == map[] && subscriptions == map[] && !cancelled
    {
      units, refs, subscriptions, cancelled := map[], map[], map[], false;
    }

    /** Put `unit` and a fresh open ref under `name`, replacing whatever was
        there; refs handed out earlier stay as they were. */
    method Register(name: string, unit: UnitId)
      requires Valid()
      modifies this
      ensures Valid()
      ensures units == old(units)[name := unit]
      ensures name in refs && fresh(refs[name]) && !refs[name].closed
      ensures refs == old(refs)[name := refs[name]]
      ensures subscriptions == old(subscriptions) && cancelled == old(cancelled)
    {
      var ref := new UnitRef(name, this);
      units := units[name := unit];
      refs := refs[name := ref];
    }

    /** `c` initialises the unit registered under its ref's name, with that
        name's canonical ref as `Self()`. */
    predicate InitsCanonical(c: InitCall)
      reads this
    {
      c.self.name in units && c.self.name in refs
      && c.unit == units[c.self.name] && c.self == refs[c.self.name]
    }

    /** `Start`: one `Init` per registered name, each with that name's
        canonical ref as `Self()`. It never fails. */
    method Start() returns (calls: seq<InitCall>)
      requires Valid()
      ensures multiset(Project(calls, InitNameOf)) == multiset(units.Keys)
      ensures forall c :: c in calls ==> InitsCanonical(c)
    {
      calls := [];
      var rest := units.Keys;
      ghost var done: set<string> := {};
      while rest != {}
        invariant rest <= units.Keys
        invariant forall t :: t in done <==> t in units && t !in rest
        invariant multiset(Project(calls, InitNameOf)) == multiset(done)
        invariant forall c :: c in calls ==> InitsCanonical(c)
        decreases |rest|
      {
        var name :| name in rest;
        var call := InitCall(units[name], refs[name]);
        ProjectAppend(calls, call, InitNameOf);
        MultisetAddFresh(done, name);
        calls := calls + [call];
        rest := rest - {name};
        done := done + {name};
      }
      assert done == units.Keys;
    }

    /** `Stop`: cancel the shared context and forget every subscription;
        the directory and the refs stay. */
    method Stop()
      requires Valid()
      modifies this
      ensures Valid()
      ensures cancelled && subscriptions == map[]
      ensures units == old(units) && refs == old(refs)
    {
      cancelled := true;
      while subscriptions.Keys != {}
        invariant Valid() && cancelled
        invariant units == old(units) && refs == old(refs)
        decreases |subscriptions.Keys|
      {
        var p :| p in subscriptions;
        subscriptions := subscriptions - {p};
      }
      assert subscriptions == map[];
    }

    /** `getUnit`. */
    function GetUnit(name: string): (r: Option<UnitId>)
      reads this
      ensures r.Some? <==> name in units
      ensures r.Some? ==> r.value == units[name]
    {
      Lookup(units, name)
    }

    /** `getRef`: the canonical ref, or nil. */
    function GetRef(name: string): (r: UnitRef?)
      reads this
      ensures r != null <==> name in refs
      ensures Valid() && r != null ==> name in units && r.name == name && r.reg == this
    {
      if name in refs then refs[name] else null
    }

    /** The subscriber set `Send` snapshots for `publisher`. */
    function SubscribersOf(publisher: string): set<string>
      reads this
    {
      Members(subscriptions, publisher)
    }

    /** A subscriber named `name` gets a fan-out delivery: it has a unit and
        an open canonical ref. */
    predicate Reachable(name: string)
      reads this, refs.Values
    {
      name in units && GetRef(name) != null && !GetRef(name).closed
    }

    /** The names a send to `publisher` fans out to. */
    function FanOut(publisher: string): set<string>
      reads this, refs.Values
    {
      set s | s in SubscribersOf(publisher) && Reachable(s)
    }

    /** `d` goes to the unit registered under its target, through that
        name's canonical ref, from `from`, carrying `msg`. */
    ghost predicate Launched<M>(d: Delivery<M>, from: UnitRef, msg: M)
      reads this
    {
      d.target in units && d.target in refs
      && d == Delivery(d.target, units[d.target], refs[d.target], from, msg)
    }

    /** The fan-out loop of `Send`: one delivery per subscriber of
        `publisher` that has a unit and an open canonical ref, in the
        (unspecified) iteration order of the snapshot. */
    method FanOutDeliveries<M>(publisher: string, from: UnitRef, msg: M) returns (ds: seq<Delivery<M>>)
      ensures multiset(Targets(ds)) == multiset(FanOut(publisher))
      ensures forall d :: d in ds ==> Launched(d, from, msg)
    {
      ds := [];
      var subscribers := SubscribersOf(publisher);
      var rest := subscribers;
      ghost var sent: set<string> := {};
      while rest != {}
        invariant rest <= subscribers
        invariant forall t :: t in sent <==> t in subscribers && t !in rest && Reachable(t)
        invariant multiset(Targets(ds)) == multiset(sent)
        invariant forall d :: d in ds ==> Launched(d, from, msg)
        decreases |rest|
      {
        var s :| s in rest;
        var subUnit := GetUnit(s);
        var subRef := GetRef(s);
        if subUnit.Some? && subRef != null && !subRef.closed {
          var d := Delivery(s, subUnit.value, subRef, from, msg);
          ProjectAppend(ds, d, TargetOf);
          MultisetAddFresh(sent, s);
          ds := ds + [d];
          sent := sent + {s};
        }
        rest := rest - {s};
      }
      assert sent == FanOut(publisher);
    }

    /** The identity scan of Subscribe and Unsubscribe: the first name met
        whose unit is `other`, or "" when there is none. Map order is
        unspecified, so when several names hold `other` any of them may be
        met first, "" included. */
    method ResolveName(other: UnitId) returns (found: string)
      ensures found != "" ==> found in units && units[found] == other
      ensures other !in units.Values ==> found == ""
      ensures other in units.Values && !("" in units && units[""] == other) ==> found != ""
    {
      found := "";
      var rest := units.Keys;
      while rest != {}
        invariant rest <= units.Keys
        invariant forall n :: n in units && n !in rest ==> units[n] != other
        decreases |rest|
      {
        var n :| n in rest;
        if units[n] == other {
          found := n;
          return;
        }
        rest := rest - {n};
      }
    }
  }

  /** `unitRef`: a handle on a name in one registry, with a `closed` flag. */
  class UnitRef {
    const name: string
    const reg: Registry
    var closed: bool

    constructor (name: string, reg: Registry)
      ensures this.name == name && this.reg == reg && !closed
    {
      this.name, this.reg, closed := name, reg, false;
    }

    /** `Name`. */
    function Name(): (n: string)
      ensures n == name
    {
      name
    }

    /** `Stop`: close this ref. Nothing reopens it. */
    method Stop()
      modifies this`closed
      ensures closed
    {
      closed := true;
    }

    /** `Send`: the `Handle` invocations launched, in launch order. A closed
        ref or a name without a unit launches nothing. Otherwise the first is
        the direct delivery to this name through this ref, followed by one
        delivery per subscriber of this name that has a unit and an open
        canonical ref; every one has this ref as `from`. */
    method Send<M>(msg: M) returns (ds: seq<Delivery<M>>)
      ensures closed ==> ds == []
      ensures name !in reg.units ==> ds == []
      ensures !closed && name in reg.units ==>
        && ds != [] && ds[0] == Delivery(name, reg.units[name], this, this, msg)
        && multiset(Targets(ds[1..])) == multiset(reg.FanOut(name))
        && multiset(Targets(ds)) == multiset{name} + multiset(reg.FanOut(name))
        && forall d :: d in ds[1..] ==> reg.Launched(d, this, msg)
    {
      if closed {
        return [];
      }
      var unit := reg.GetUnit(name);
      if unit.None? {
        return [];
      }
      var fan := reg.FanOutDeliveries(name, this, msg);
      ds := [Delivery(name, unit.value, this, this, msg)] + fan;
      assert ds[1..] == fan;
      TargetsSplit(ds);
    }
  }

  /** `registryCtx`: the view of the registry handed to one unit. */
  class RegistryCtx {
    const reg: Registry
    const self: UnitRef

    constructor (reg: Registry, self: UnitRef)
      ensures this.reg == reg && this.self == self
    {
      this.reg, this.self := reg, self;
    }

    /** `Self`. */
    function Self(): (r: UnitRef)
      ensures r == self
    {
      self
    }

    /** `Units`: every registered name once, with its unit. */
    method Units() returns (descs: seq<UnitDesc>)
      ensures multiset(Project(descs, NameOf)) == multiset(reg.units.Keys)
      ensures forall d :: d in descs ==> d.name in reg.units && reg.units[d.name] == d.proxy
    {
      var units := reg.units;
      descs := [];
      var rest := units.Keys;
      ghost var done: set<string> := {};
      while rest != {}
        invariant rest <= units.Keys
        invariant forall t :: t in done <==> t in units && t !in rest
        invariant multiset(Project(descs, NameOf)) == multiset(done)
        invariant forall d :: d in descs ==> d.name in units && units[d.name] == d.proxy
        decreases |rest|
      {
        var name :| name in rest;
        var d := UnitDesc(name, units[name]);
        ProjectAppend(descs, d, NameOf);
        MultisetAddFresh(done, name);
        descs := descs + [d];
        rest := rest - {name};
        done := done + {name};
      }
      assert done == units.Keys;
    }

    /** `Spawn`: an existing name gives back its canonical ref and changes
        nothing; a new name gets the factory's unit and a fresh open ref,
        and that unit is initialised once with the new ref as `Self()`. */
    method Spawn(name: string, factory: () -> UnitId) returns (ref: UnitRef, init: Option<InitCall>)
      requires reg.Valid()
      modifies reg
      ensures reg.Valid()
      ensures old(name in reg.units) ==>
        ref == old(reg.refs[name]) && init == None && unchanged(reg)
      ensures old(name !in reg.units) ==>
        && fresh(ref) && ref.name == name && ref.reg == reg && !ref.closed
        && reg.units == old(reg.units)[name := factory()]
        && reg.refs == old(reg.refs)[name := ref]
        && reg.subscriptions == old(reg.subscriptions) && reg.cancelled == old(reg.cancelled)
        && init == Some(InitCall(factory(), ref))
    {
      if name in reg.units {
        return reg.refs[name], None;
      }
      var unit := factory();
      ref := new UnitRef(name, reg);
      reg.units := reg.units[name := unit];
      reg.refs := reg.refs[name := ref];
      init := Some(InitCall(unit, ref));
    }

    /** `Subscribe`: add this unit's name to the subscribers of the name
        that holds `other`; no change when no name holds it (or when the
        scan meets it under the name ""). */
    method Subscribe(other: UnitId)
      requires reg.Valid()
      modifies reg
      ensures reg.Valid()
      ensures reg.units == old(reg.units) && reg.refs == old(reg.refs) && reg.cancelled == old(reg.cancelled)
      ensures other !in old(reg.units.Values) ==> reg.subscriptions == old(reg.subscriptions)
      ensures forall p :: p != "" && SoleOwner(old(reg.units), other, p) ==>
        reg.subscriptions == AddSubscriber(old(reg.subscriptions), p, self.name)
      ensures || reg.subscriptions == old(reg.subscriptions)
              || exists p :: p != "" && p in old(reg.units) && old(reg.units)[p] == other
                             && reg.subscriptions == AddSubscriber(old(reg.subscriptions), p, self.name)
    {
      var otherName := reg.ResolveName(other);
      if otherName == "" {
        return;
      }
      reg.subscriptions := AddSubscriber(reg.subscriptions, otherName, self.name);
    }

    /** `Unsubscribe`: remove the name that holds `other` from the set kept
        under THIS unit's name, dropping that key once empty. The set under
        the other name, where Subscribe put this unit, is left alone. */
    method Unsubscribe(other: UnitId)
      requires reg.Valid()
      modifies reg
      ensures reg.Valid()
      ensures reg.units == old(reg.units) && reg.refs == old(reg.refs) && reg.cancelled == old(reg.cancelled)
      ensures other !in old(reg.units.Values) ==> reg.subscriptions == old(reg.subscriptions)
      ensures forall p :: p != "" && SoleOwner(old(reg.units), other, p) ==>
        reg.subscriptions == RemoveSubscriber(old(reg.subscriptions), self.name, p)
      ensures || reg.subscriptions == old(reg.subscriptions)
              || exists p :: p != "" && p in old(reg.units) && old(reg.units)[p] == other
                             && reg.subscriptions == RemoveSubscriber(old(reg.subscriptions), self.name, p)
    {
      var otherName := reg.ResolveName(other);
      if otherName == "" {
        return;
      }
      reg.subscriptions := RemoveSubscriber(reg.subscriptions, self.name, otherName);
    }
  }

  // ---------------------------------------------------------------------
  // Properties of the subscription graph

  /** Subscribing twice is the same as subscribing once. */
  lemma AddSubscriberIdempotent(subs: map<string, set<string>>, publisher: string, subscriber: string)
    ensures AddSubscriber(AddSubscriber(subs, publisher, subscriber), publisher, subscriber)
         == AddSubscriber(subs, publisher, subscriber)
  {
  }

  /** Unsubscribe does not undo Subscribe: after `s` subscribes to `p` and
      then unsubscribes from it, `s` is still a subscriber of `p`, because
      the removal works on the entry kept under `s`. */
  lemma UnsubscribeKeepsSubscription(subs: map<string, set<string>>, p: string, s: string)
    requires p != s
    ensures s in Members(RemoveSubscriber(AddSubscriber(subs, p, s), s, p), p)
  {
  }

  /** What Unsubscribe does undo is the mirrored subscription: `p` added
      under `s` and then removed from under `s` leaves `s`'s entry as it
      would be without `p`. */
  lemma UnsubscribeUndoesMirror(subs: map<string, set<string>>, p: string, s: string)
    ensures Members(RemoveSubscriber(AddSubscriber(subs, s, p), s, p), s) == Members(subs, s) - {p}
    ensures forall q :: q != s ==> Members(RemoveSubscriber(AddSubscriber(subs, s, p), s, p), q) == Members(subs, q)
  {
  }
}
