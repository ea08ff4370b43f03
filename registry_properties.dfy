/** Properties of the registry that span several calls: what a unit hears
    from a publisher after subscribing to it, and after unsubscribing. */
module UnitProperties {
  import opened Unit

  /** After `ctx`'s unit subscribes to the unit held by `publisherRef`'s
      name, a send through `publisherRef` reaches it once, or twice when it
      subscribed to itself: once directly and once through the fan-out. */
  method SubscribeThenSend(ctx: RegistryCtx, publisherRef: UnitRef, publisher: UnitId)
      returns (targets: multiset<string>)
    requires ctx.reg.Valid()
    requires publisherRef.name != "" && SoleOwner(ctx.reg.units, publisher, publisherRef.name)
    requires publisherRef == ctx.reg.refs[publisherRef.name] && !publisherRef.closed
    requires ctx.reg.Reachable(ctx.self.name)
    modifies ctx.reg
    ensures targets[ctx.self.name] == if ctx.self.name == publisherRef.name then 2 else 1
    ensures targets[publisherRef.name] >= 1
  {
    ctx.Subscribe(publisher);
    assert ctx.self.name in ctx.reg.FanOut(publisherRef.name);
    var ds := publisherRef.Send("message");
    targets := multiset(Targets(ds));
  }

  /** Unsubscribe does not stop the fan-out it was meant to stop: a unit
      subscribed to a publisher still hears the publisher's next send after
      unsubscribing from it. */
  method UnsubscribeThenSend(ctx: RegistryCtx, publisherRef: UnitRef, publisher: UnitId)
      returns (targets: multiset<string>)
    requires ctx.reg.Valid()
    requires publisherRef.name != "" && SoleOwner(ctx.reg.units, publisher, publisherRef.name)
    requires publisherRef == ctx.reg.refs[publisherRef.name] && !publisherRef.closed
    requires ctx.self.name != publisherRef.name
    requires ctx.self.name in ctx.reg.SubscribersOf(publisherRef.name) && ctx.reg.Reachable(ctx.self.name)
    modifies ctx.reg
    ensures targets[ctx.self.name] == 1
  {
    ctx.Unsubscribe(publisher);
    assert ctx.self.name in ctx.reg.FanOut(publisherRef.name);
    var ds := publisherRef.Send("message");
    targets := multiset(Targets(ds));
  }

  /** A stopped ref sends nothing, whoever subscribed to its name. */
  method StoppedRefSendsNothing(ref: UnitRef) returns (targets: multiset<string>)
    modifies ref
    ensures targets == multiset{}
  {
    ref.Stop();
    var ds := ref.Send("message");
    targets := multiset(Targets(ds));
  }
}
