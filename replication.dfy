/** One menu activation replicated across a Multiplayer session: the
    originator's proxy call is intercepted and sends the action and its
    context, which every participant (the originator included) decodes
    through the identity tables and replays through NotifyMenuActivate. */
module Replication {
  import opened SyncTypes
  import opened MenuLookup
  import opened SyncWorkers
  import opened KeyOverride
  import opened ActivationGuard

  /** The wire form of a sent broadcast: the action, then the context. */
  function Envelope(t: Tables, b: Broadcast): Result<seq<Token>> {
    match WriteAction(t.forward, b.action)
    case Err(e) => Err(e)
    case Ok(tokens) => Ok(tokens + WriteContext(b.ctx))
  }

  /** Decoding an envelope and replaying it on one participant. */
  function Deliver(t: Tables, wire: seq<Token>, create: TypeTag -> Designator, q: GuardState, live: MenuContext)
    : Result<Step>
  {
    match ReadAction(t.reverse, wire, create)
    case Err(e) => Err(e)
    case Ok(Read(action, rest)) =>
      match ReadContext(rest)
      case Err(e) => Err(e)
      case Ok(Read(ctx, _)) => Ok(Notify(q, action, ctx, live, false))
  }

  /** Exactly once: an activation of a catalog entry on the originator, in
      whatever state, applies nothing locally and sends one envelope carrying
      the keys the originator observes (the live ones, or a context still
      installed there). Delivering that envelope to any participant, one left
      with a stale context or a raised flag included, applies the same entry
      exactly once, with a fresh designator of the same type, the message
      suppressed and the sent keys, whatever keys that participant holds;
      it sends nothing and leaves the participant idle. An idle originator
      stays idle and sends its live keys. */
  lemma {:induction false} ExactlyOnce(catalog: seq<Provider>, i: int, a: int, designator: Designator,
                                       originator: GuardState, liveAtOrigin: MenuContext,
                                       q: GuardState, liveAtPeer: MenuContext, create: TypeTag -> Designator)
    requires BuildTables(catalog).failure.None?
    requires 0 <= i < |catalog| && 0 <= a < |catalog[i].entries|
    requires ShouldSync(catalog[i].entries[a].kind.name, false)
    ensures var t, entry := BuildTables(catalog).tables, catalog[i].entries[a];
      var keys := ObservedKeys(originator.currentContext, liveAtOrigin);
      var sent := Proxy(originator, entry, designator, false, liveAtOrigin, Intercepted, false);
      && sent.state.activations == originator.activations
      && sent.state.currentContext == originator.currentContext
      && (Idle(originator) ==> Idle(sent.state) && keys == liveAtOrigin)
      && |sent.state.outbox| == |originator.outbox| + 1
      && var wire := Envelope(t, sent.state.outbox[|originator.outbox|]);
         && wire.Ok?
         && Deliver(t, wire.value, create, q, liveAtPeer).Ok?
         && var after := Deliver(t, wire.value, create, q, liveAtPeer).value;
            && after.state.activations
                 == q.activations + [Activation(entry, create(designator.kind), false, keys)]
            && after.state.outbox == q.outbox
            && Idle(after.state)
            && !after.threw
  {
    var t, entry := BuildTables(catalog).tables, catalog[i].entries[a];
    var keys := ObservedKeys(originator.currentContext, liveAtOrigin);
    BuildTablesSpec(catalog);
    InterceptedBroadcastSkipsBody(originator, entry, designator, liveAtOrigin, false);
    ObservedKeysFidelity(originator.currentContext, liveAtOrigin);
    var sent := Proxy(originator, entry, designator, false, liveAtOrigin, Intercepted, false);
    var b := sent.state.outbox[|originator.outbox|];
    assert b == Broadcast(MenuAction(false, entry, designator), keys);
    ActionRoundTrip(t, b.action, WriteContext(b.ctx), create);
    ContextRoundTrip(b.ctx, []);
    assert WriteContext(b.ctx) + [] == WriteContext(b.ctx);
    var action := MenuAction(true, entry, create(designator.kind));
    RemoteNotifyAppliesOnce(q, action, keys, liveAtPeer, false);
  }
}
