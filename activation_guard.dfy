/** The replication guard of AllowTool.cs: ProxyActivateAndHandleResult
    (which every call to ActivateAndHandleResult is redirected to),
    NotifyMenuActivate (the sync method that broadcasts an activation) and
    PrefixActivationShowMessage, over the static fields localNotify,
    supressActivationMessage and currentContext.

    The functions Proxy and Notify state the effect of one call on the
    guard's state; the class ReplicationGuard performs the same calls step by
    step and is proved to follow them. ActivateAndHandleResult itself is
    abstract: each invocation is recorded with what it observes, and whether
    it throws is a parameter. */
module ActivationGuard {
  import opened SyncTypes
  import opened KeyOverride

  /** What the Multiplayer sync layer does with a call to the sync method
      NotifyMenuActivate: outside a session the call runs locally; inside one
      it is intercepted, serialised and sent, and its body does not run. */
  datatype SyncOutcome = RunsLocally | Intercepted

  /** One invocation of ActivateAndHandleResult: its arguments, whether
      ActivationResult.ShowMessage would run (the prefix's verdict), and the
      modifier keys the body observes. */
  datatype Activation = Activation(entry: Entry, designator: Designator, showsMessage: bool, keys: MenuContext)

  /** An intercepted call of NotifyMenuActivate: the arguments that are sent. */
  datatype Broadcast = Broadcast(action: MenuAction, ctx: MenuContext)

  datatype GuardState = GuardState(
    localNotify: bool,
    suppressMessage: bool,
    currentContext: Option<MenuContext>,
    activations: seq<Activation>,
    outbox: seq<Broadcast>)

  /** The state after a call, and whether the call ended by throwing. */
  datatype Step = Step(state: GuardState, threw: bool)

  /** The state between activations: no flag raised and no context installed. */
  predicate Idle(s: GuardState) {
    !s.localNotify && !s.suppressMessage && s.currentContext.None?
  }

  /** Entries that only select a designator and change nothing worth syncing. */
  predicate ExcludedEntry(entryName: string) {
    || entryName == "MenuEntry_MineSelectStripMine"
    || entryName == "MenuEntry_SelectSimilarAll"
    || entryName == "MenuEntry_SelectSimilarVisible"
  }

  /** The guard broadcasts a call unless it is already a remote replay or its
      entry is an excluded one. */
  predicate ShouldSync(entryName: string, isRemote: bool) {
    !(isRemote || ExcludedEntry(entryName))
  }

  /** PrefixActivationShowMessage, the prefix on ActivationResult.ShowMessage:
      its result says whether ShowMessage runs. */
  function PrefixActivationShowMessage(supressActivationMessage: bool): bool {
    !supressActivationMessage
  }

  /** The tail of ProxyActivateAndHandleResult: raise the suppression flag
      for a remote call, invoke the original method, and lower the flag in a
      `finally` whether or not the method throws. */
  function Invoke(s: GuardState, entry: Entry, designator: Designator, isRemote: bool, live: MenuContext, bodyThrows: bool)
    : (r: Step)
    ensures r.state.activations == s.activations
              + [Activation(entry, designator, !(isRemote || s.suppressMessage), ObservedKeys(s.currentContext, live))]
    ensures !r.state.suppressMessage
    ensures r.state.localNotify == s.localNotify && r.state.currentContext == s.currentContext
    ensures r.state.outbox == s.outbox
    ensures r.threw == bodyThrows
  {
    var s1 := if isRemote then s.(suppressMessage := true) else s;
    var act := Activation(entry, designator, PrefixActivationShowMessage(s1.suppressMessage), ObservedKeys(s1.currentContext, live));
    Step(s1.(activations := s1.activations + [act], suppressMessage := false), bodyThrows)
  }

  /** ProxyActivateAndHandleResult(entry, designator, isRemote). `live` is the
      keys actually held, `outcome` what the sync layer does with the
      broadcast, `bodyThrows` whether the original method throws. */
  function Proxy(s: GuardState, entry: Entry, designator: Designator, isRemote: bool, live: MenuContext,
                 outcome: SyncOutcome, bodyThrows: bool): Step
    decreases if isRemote then 1 else 3
  {
    if ShouldSync(entry.kind.name, isRemote) then
      var s1 := s.(localNotify := true);
      var action := MenuAction(false, entry, designator);
      var ctx := ObservedKeys(s1.currentContext, live);
      var after :=
        if outcome == RunsLocally then Notify(s1, action, ctx, live, bodyThrows)
        else Step(s1.(outbox := s1.outbox + [Broadcast(action, ctx)]), false);
      if after.threw then after
      else if after.state.localNotify then Step(after.state.(localNotify := false), false)
      else Invoke(after.state, entry, designator, isRemote, live, bodyThrows)
    else
      Invoke(s, entry, designator, isRemote, live, bodyThrows)
  }

  /** NotifyMenuActivate(action, ctx) as its body runs: it clears localNotify
      and, for a remote action, installs the context around a remote proxy
      call and then sets it back to null. There is no `finally`: when the
      proxy call throws, the context stays installed. */
  function Notify(s: GuardState, action: MenuAction, ctx: MenuContext, live: MenuContext, bodyThrows: bool): Step
    decreases if action.isRemote then 2 else 0
  {
    var s1 := s.(localNotify := false);
    if action.isRemote then
      var inner := Proxy(s1.(currentContext := Some(ctx)), action.entry, action.designator, true, live, RunsLocally, bodyThrows);
      if inner.threw then inner
      else Step(inner.state.(currentContext := None), false)
    else
      Step(s1, false)
  }

  /** A remote replay never re-broadcasts: it invokes the original method
      exactly once, with the message suppressed and the installed context's
      keys, and leaves localNotify and the outbox alone. */
  lemma RemoteReplayNeverBroadcasts(s: GuardState, entry: Entry, designator: Designator, live: MenuContext,
                                    outcome: SyncOutcome, bodyThrows: bool)
    ensures var r := Proxy(s, entry, designator, true, live, outcome, bodyThrows);
      && r.state.outbox == s.outbox
      && r.state.localNotify == s.localNotify
      && r.state.currentContext == s.currentContext
      && r.state.activations == s.activations + [Activation(entry, designator, false, ObservedKeys(s.currentContext, live))]
      && !r.state.suppressMessage
      && r.threw == bodyThrows
  {
  }

  /** A broadcast the sync layer intercepts leaves localNotify raised, so the
      local call stops without invoking the original method; the flag is
      lowered again, and the action is sent as a local one with the keys
      observed at that moment. */
  lemma InterceptedBroadcastSkipsBody(s: GuardState, entry: Entry, designator: Designator, live: MenuContext, bodyThrows: bool)
    requires ShouldSync(entry.kind.name, false)
    ensures var r := Proxy(s, entry, designator, false, live, Intercepted, bodyThrows);
      && r.state.activations == s.activations
      && r.state.outbox == s.outbox + [Broadcast(MenuAction(false, entry, designator), ObservedKeys(s.currentContext, live))]
      && !r.state.localNotify
      && r.state.suppressMessage == s.suppressMessage
      && r.state.currentContext == s.currentContext
      && !r.threw
  {
  }

  /** A broadcast that runs locally clears localNotify through the sync
      method's body, so the original method is invoked exactly once, and
      nothing is sent. */
  lemma LocalBroadcastRunsOnce(s: GuardState, entry: Entry, designator: Designator, live: MenuContext, bodyThrows: bool)
    requires ShouldSync(entry.kind.name, false)
    ensures var r := Proxy(s, entry, designator, false, live, RunsLocally, bodyThrows);
      && r.state.activations == s.activations
           + [Activation(entry, designator, PrefixActivationShowMessage(s.suppressMessage), ObservedKeys(s.currentContext, live))]
      && r.state.outbox == s.outbox
      && !r.state.localNotify && !r.state.suppressMessage
      && r.state.currentContext == s.currentContext
      && r.threw == bodyThrows
  {
  }

  /** An excluded entry is invoked directly, whatever the sync layer would
      do: the call is exactly one invocation of this entry and designator,
      observing the installed or live keys; nothing is sent, localNotify and
      the context are untouched, and it throws iff the method does. */
  lemma ExcludedEntryIsNotSynced(s: GuardState, entry: Entry, designator: Designator, live: MenuContext,
                                 outcome: SyncOutcome, bodyThrows: bool)
    requires ExcludedEntry(entry.kind.name)
    ensures var r := Proxy(s, entry, designator, false, live, outcome, bodyThrows);
      && r == Invoke(s, entry, designator, false, live, bodyThrows)
      && r.state.outbox == s.outbox
      && r.state.localNotify == s.localNotify
      && r.state.currentContext == s.currentContext
      && r.state.activations == s.activations
           + [Activation(entry, designator, PrefixActivationShowMessage(s.suppressMessage), ObservedKeys(s.currentContext, live))]
      && !r.state.suppressMessage
      && r.threw == bodyThrows
  {
  }

  /** Every proxy call either stops at an intercepted broadcast, invoking
      nothing, or invokes the original method exactly once; the message is
      suppressed during that invocation exactly when the call is remote (or
      the flag was already raised), and the flag is lowered afterwards even
      when the method throws. */
  lemma {:induction false} ProxyInvokesAtMostOnce(s: GuardState, entry: Entry, designator: Designator, isRemote: bool,
                                                  live: MenuContext, outcome: SyncOutcome, bodyThrows: bool)
    ensures var r := Proxy(s, entry, designator, isRemote, live, outcome, bodyThrows);
      && r.state.currentContext == s.currentContext
      && (if ShouldSync(entry.kind.name, isRemote) && outcome == Intercepted then
            r.state.activations == s.activations && r.state.suppressMessage == s.suppressMessage && !r.threw
          else
            && r.state.activations == s.activations
                 + [Activation(entry, designator, !(isRemote || s.suppressMessage), ObservedKeys(s.currentContext, live))]
            && !r.state.suppressMessage
            && r.threw == bodyThrows)
  {
    if ShouldSync(entry.kind.name, isRemote) && outcome == RunsLocally {
      LocalBroadcastRunsOnce(s, entry, designator, live, bodyThrows);
    }
  }

  /** A remote NotifyMenuActivate invokes the original method exactly once,
      observing exactly the sent keys with the message suppressed, sends
      nothing, and clears localNotify. The context is set back to null when
      the method returns normally and stays installed when it throws. */
  lemma RemoteNotifyAppliesOnce(s: GuardState, action: MenuAction, ctx: MenuContext, live: MenuContext, bodyThrows: bool)
    requires action.isRemote
    ensures var r := Notify(s, action, ctx, live, bodyThrows);
      && r.state.activations == s.activations + [Activation(action.entry, action.designator, false, ctx)]
      && r.state.outbox == s.outbox
      && !r.state.localNotify && !r.state.suppressMessage
      && r.state.currentContext == (if bodyThrows then Some(ctx) else None)
      && r.threw == bodyThrows
  {
    RemoteReplayNeverBroadcasts(s.(localNotify := false, currentContext := Some(ctx)), action.entry, action.designator,
                                live, RunsLocally, bodyThrows);
  }

  /** The role of PrefixActivationShowMessage: no invocation inside a remote
      replay shows its result message, and an invocation from a local
      activation on an idle guard shows it whenever the original method runs. */
  lemma MessageShownOnlyLocally(s: GuardState, action: MenuAction, ctx: MenuContext, entry: Entry, designator: Designator,
                                live: MenuContext, outcome: SyncOutcome, bodyThrows: bool)
    ensures action.isRemote ==>
      var r := Notify(s, action, ctx, live, bodyThrows);
      |r.state.activations| == |s.activations| + 1 && !r.state.activations[|s.activations|].showsMessage
    ensures Idle(s) && !(ShouldSync(entry.kind.name, false) && outcome == Intercepted) ==>
      var r := Proxy(s, entry, designator, false, live, outcome, bodyThrows);
      |r.state.activations| == |s.activations| + 1 && r.state.activations[|s.activations|].showsMessage
  {
    if action.isRemote {
      RemoteNotifyAppliesOnce(s, action, ctx, live, bodyThrows);
    }
    ProxyInvokesAtMostOnce(s, entry, designator, false, live, outcome, bodyThrows);
  }

  /** A local NotifyMenuActivate only clears localNotify. */
  lemma LocalNotifyOnlyClearsFlag(s: GuardState, action: MenuAction, ctx: MenuContext, live: MenuContext, bodyThrows: bool)
    requires !action.isRemote
    ensures Notify(s, action, ctx, live, bodyThrows) == Step(s.(localNotify := false), false)
  {
  }

  /** From the idle state, every call that returns normally ends idle again. */
  lemma IdleRestored(s: GuardState, entry: Entry, designator: Designator, isRemote: bool, live: MenuContext,
                     outcome: SyncOutcome, action: MenuAction, ctx: MenuContext)
    requires Idle(s)
    ensures Idle(Proxy(s, entry, designator, isRemote, live, outcome, false).state)
    ensures Idle(Notify(s, action, ctx, live, false).state)
  {
    ProxyInvokesAtMostOnce(s, entry, designator, isRemote, live, outcome, false);
    if action.isRemote {
      RemoteNotifyAppliesOnce(s, action, ctx, live, false);
    }
  }

  /** As written, a remote replay whose original method throws leaves its
      context installed: afterwards every modifier query observes the
      replayed keys instead of the keys actually held. */
  lemma ContextLeaksWhenReplayThrows()
    ensures var s := GuardState(false, false, None, [], []);
      var ctx, live := MenuContext(true, false, false), MenuContext(false, false, false);
      var r := Notify(s, MenuAction(true, Obj(0, TypeTag("AllowTool.Context", "MenuEntry_HaulUrgently")), Obj(1, TypeTag("AllowTool", "Designator_HaulUrgently"))), ctx, live, true);
      && Idle(s)
      && r.threw
      && r.state.currentContext == Some(ctx)
      && ObservedKeys(r.state.currentContext, live) != live
  {
  }

  /** NotifyMenuActivate with the context reset in a `finally`, as
      supressActivationMessage already is in the proxy. */
  function NotifyRestoring(s: GuardState, action: MenuAction, ctx: MenuContext, live: MenuContext, bodyThrows: bool): Step {
    var s1 := s.(localNotify := false);
    if action.isRemote then
      var inner := Proxy(s1.(currentContext := Some(ctx)), action.entry, action.designator, true, live, RunsLocally, bodyThrows);
      Step(inner.state.(currentContext := None), inner.threw)
    else
      Step(s1, false)
  }

  /** With the `finally`, a call from the idle state ends idle whether or not
      the replayed method throws, and applies the same activations as the
      code as written. */
  lemma NotifyRestoringEndsIdle(s: GuardState, action: MenuAction, ctx: MenuContext, live: MenuContext, bodyThrows: bool)
    requires Idle(s)
    ensures var r := NotifyRestoring(s, action, ctx, live, bodyThrows);
      && Idle(r.state)
      && r.state.activations == Notify(s, action, ctx, live, bodyThrows).state.activations
      && r.state.outbox == s.outbox
      && r.threw == (action.isRemote && bodyThrows)
  {
    if action.isRemote {
      RemoteNotifyAppliesOnce(s, action, ctx, live, bodyThrows);
      RemoteReplayNeverBroadcasts(s.(localNotify := false, currentContext := Some(ctx)), action.entry, action.designator,
                                  live, RunsLocally, bodyThrows);
    }
  }

  /** The static fields of the guard, and the record of what was invoked and sent. */
  class ReplicationGuard {
    var localNotify: bool
    var supressActivationMessage: bool
    var currentContext: Option<MenuContext>
    var activations: seq<Activation>
    var outbox: seq<Broadcast>

    function State(): GuardState
      reads this
    {
      GuardState(localNotify, supressActivationMessage, currentContext, activations, outbox)
    }

    constructor ()
      ensures Idle(State()) && activations == [] && outbox == []
    {
      localNotify, supressActivationMessage, currentContext := false, false, None;
      activations, outbox := [], [];
    }

    method ProxyActivateAndHandleResult(entry: Entry, designator: Designator, isRemote: bool, live: MenuContext,
                                        outcome: SyncOutcome, bodyThrows: bool)
      returns (threw: bool)
      modifies this
      decreases if isRemote then 1 else 3
      ensures Step(State(), threw) == Proxy(old(State()), entry, designator, isRemote, live, outcome, bodyThrows)
    {
      var entryName := entry.kind.name;
      var shouldSync := ShouldSync(entryName, isRemote);
      if shouldSync {
        localNotify := true;
        var action := MenuAction(false, entry, designator);
        var ctx := ObservedKeys(currentContext, live);
        if outcome == RunsLocally {
          threw := NotifyMenuActivate(action, ctx, live, bodyThrows);
          if threw {
            return;
          }
        } else {
          outbox := outbox + [Broadcast(action, ctx)];
        }
        if localNotify {
          localNotify := false;
          return false;
        }
      }
      if isRemote {
        supressActivationMessage := true;
      }
      activations := activations + [Activation(entry, designator, PrefixActivationShowMessage(supressActivationMessage), ObservedKeys(currentContext, live))];
      supressActivationMessage := false;
      threw := bodyThrows;
    }

    method NotifyMenuActivate(action: MenuAction, ctx: MenuContext, live: MenuContext, bodyThrows: bool)
      returns (threw: bool)
      modifies this
      decreases if action.isRemote then 2 else 0
      ensures Step(State(), threw) == Notify(old(State()), action, ctx, live, bodyThrows)
    {
      localNotify := false;
      threw := false;
      if action.isRemote {
        currentContext := Some(ctx);
        threw := ProxyActivateAndHandleResult(action.entry, action.designator, true, live, RunsLocally, bodyThrows);
        if threw {
          return;
        }
        currentContext := None;
      }
    }
  }
}
