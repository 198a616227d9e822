# Allow Tool multiplayer compatibility, modelled in Dafny

This project models the replication core of `Source/Mods/AllowTool.cs` from
the Multiplayer compatibility collection. That file makes Allow Tool's
context-menu actions and its select-similar designators safe in a lockstep
Multiplayer session. It does so in four parts:

- **Identity tables.** Context-menu entries are plain objects, so they cannot
  be sent as they are. `PopulateMenuLookupTableIfNeeded` builds a forward
  table from each entry to a `ContextMenuEntryId(handled designator type,
  index)` and a reverse table from each handled type to its ordered entries.
- **Sync workers.** Three workers write an action, its modifier-key context
  and an entry id to a Multiplayer sync stream, and read them back.
- **Replication guard.** `ProxyActivateAndHandleResult` replaces every call
  to `ActivateAndHandleResult`. It decides whether to broadcast through the
  sync method `NotifyMenuActivate`. It detects an intercepted broadcast
  through `localNotify`. It suppresses the result message during a remote
  replay. Around a replay, `currentContext` makes HugsLib's shift, alt and
  ctrl getters return the keys the originator held.
- **Opt-out hooks.** A prefix and a postfix on the designation methods raise
  Multiplayer's `dontSync` flag for three Allow Tool designators and lower it
  afterwards.

Reflection and Harmony are modelled as abstract values:

- A CLR object is `Obj(id, kind)`, where `kind` is its `GetType()`.
- `Activator.CreateInstance` is a function parameter `create`.
- The sync stream is a sequence of tagged tokens.
- What Multiplayer does with a call to the sync method is a `SyncOutcome`:
  - `RunsLocally`: outside a session, the body runs with `isRemote = false`.
  - `Intercepted`: inside a session, the call is sent and its body does not run.
- `ActivateAndHandleResult` is abstract. Each invocation is recorded with
  whether `ShowMessage` would run and which keys it observes. Whether it
  throws is a parameter.

Files, one module each:

- `sync_types.dfy`: shared values and errors.
- `menu_lookup.dfy`: the identity tables.
- `sync_workers.dfy`: the stream codecs.
- `key_override.dfy`: the getter postfix.
- `activation_guard.dfy`: the guard, as state functions and as a class with methods proved to follow them.
- `call_rewriter.dfy`: the transpiler.
- `designator_opt_out.dfy`: the `dontSync` hooks.
- `replication.dfy`: one activation replicated end to end.

Behaviour of the code that the model keeps as it is:

- **Partial tables.** Both tables are assigned before they are filled. A
  duplicate entry or handled type makes `Dictionary.Add` throw midway. The
  tables then stay partly filled and non-null, and they are never rebuilt.
  `SyncWorkers.PartialTablesMisdecode` shows what such tables do: an entry
  of a second provider for an already handled type is written under the
  first provider's array and read back as the first provider's entry.
- **Context reset.** `currentContext` is set back to null, not to its
  previous value. It is not reset at all when the replay throws (see
  Findings).
- **Decode errors.** A failure to decode an action throws out of the sync
  worker.
- **`dontSync` reset.** The postfix sets `dontSync` to false, not to the value
  it had before the prefix. It is a Harmony postfix, so it does not run when
  the designation throws (see Findings).
- **No epochs.** The tables carry no catalog version; the peers' tables agree
  only when every peer builds them from the same catalog.

## Model

| member | source | states |
|---|---|---|
| `MenuLookup.MenuLookupTables.PopulateIfNeeded` | Source/Mods/AllowTool.cs:98-119 | When either table is null, both become exactly the tables `BuildTables` gives for the catalog, including a partial fill and the exception when a key repeats. When both tables exist, nothing changes. Both are non-null afterwards, so a second call changes nothing. |
| `MenuLookup.BuildTablesSpec` | Source/Mods/AllowTool.cs:108-117 | A build succeeds iff no entry and no handled type repeats in the catalog. A successful build covers exactly the catalog's entries and types and stores each provider's array under its type. Its two tables agree in both directions: e maps to (T, i) iff the array for T holds e at i. |
| `MenuLookup.AddEntriesSpec` | Source/Mods/AllowTool.cs:114-115 | The inner loop succeeds iff the entries so far are distinct and new. It then maps entry j to (T, j), keeps earlier mappings and leaves the reverse table alone. |
| `MenuLookup.BuildFailureSticks` | Source/Mods/AllowTool.cs:110-117 | Once `Add` has thrown on some provider, the providers after it change nothing. |
| `MenuLookup.LookupRoundTrip` | Source/Mods/AllowTool.cs:108-116 | After a successful build, the entry at position a of the provider for T is mapped to (T, a), and the array stored for T is that provider's entries. |
| `SyncWorkers.EntryIdRoundTrip` | Source/Mods/AllowTool.cs:287-297 | An id is written as type then index, and reading it back yields the same id and the rest of the stream. |
| `SyncWorkers.ContextRoundTrip` | Source/Mods/AllowTool.cs:279-284 | A context is bound as shift, alt, ctrl, and reading it back yields the same three keys. |
| `SyncWorkers.WriteAction` | Source/Mods/AllowTool.cs:250-256 | Writing fails iff the entry is not in the forward table. |
| `SyncWorkers.ReadAction` | Source/Mods/AllowTool.cs:257-275 | A decoded action is always remote, and its entry comes from one of the reverse table's arrays. |
| `SyncWorkers.ReadActionOutcome` | Source/Mods/AllowTool.cs:259-274 | An unknown type gives the unknown-type error. An index below 0 or at least the array length gives the out-of-range error. Both are raised before the designator type is read. Otherwise the action holds `entries[index]`, a fresh instance of the type read next, and `isRemote`. |
| `SyncWorkers.ActionRoundTrip` | Source/Mods/AllowTool.cs:246-276 | Over tables that agree in both directions, an action whose entry is known is written successfully. It reads back as the same entry, a fresh designator of the same type, and `isRemote = true`. |
| `SyncWorkers.SyncWriteAction` | Source/Mods/AllowTool.cs:246-256 | The tables are populated first: when either was null, both become exactly the tables `BuildTables` gives for the catalog; otherwise they are unchanged. A build failure escapes before anything is written. Otherwise the result is `WriteAction` over the forward table. |
| `SyncWorkers.SyncReadAction` | Source/Mods/AllowTool.cs:246-275 | The tables are populated first: when either was null, both become exactly the tables `BuildTables` gives for the catalog; otherwise they are unchanged. A build failure escapes. Otherwise the result is `ReadAction` over the reverse table. |
| `SyncWorkers.PartialTablesMisdecode` | Source/Mods/AllowTool.cs:108-117 | When two providers handle the same type, the build fails after adding the second provider's entries to the forward table but before adding its array. The tables it leaves map the second provider's entry to index 0 of the first provider's array, so writing that entry and reading it back yields the first provider's entry. |
| `KeyOverride.PostfixKeyInput` | Source/Mods/AllowTool.cs:122-142 | Without a context, the live result is returned unchanged. With one, the call succeeds iff the getter is one of the three modifier getters. |
| `KeyOverride.OverrideReturnsCapturedKey` | Source/Mods/AllowTool.cs:124-137 | With a context installed, each getter returns exactly the captured field for its own key, whatever is actually held. |
| `KeyOverride.ObservedKeysFidelity` | Source/Mods/AllowTool.cs:122-141 | Code that queries the three keys observes the installed context if there is one, and the live keys otherwise. |
| `ActivationGuard.Invoke` | Source/Mods/AllowTool.cs:216-229 | Invoking the original method records exactly one activation of the given entry and designator. `ShowMessage` runs during it iff the call is local and the suppression flag was not already raised. The keys it observes are the installed context's, or the live ones without a context. The suppression flag is false afterwards, whether or not the method throws. `localNotify`, the context and the outbox are untouched, and the call throws iff the method does. |
| `ActivationGuard.MessageShownOnlyLocally` | Source/Mods/AllowTool.cs:173-229 | A remote replay through `NotifyMenuActivate` invokes once with `ShowMessage` suppressed. A local activation on an idle guard that is not stopped at an intercepted broadcast invokes once with `ShowMessage` running. |
| `ActivationGuard.RemoteReplayNeverBroadcasts` | Source/Mods/AllowTool.cs:186-191 | A remote proxy call sends nothing and leaves `localNotify` and the context unchanged. It invokes the original method exactly once, with the message suppressed and the installed keys. The flag is lowered afterwards. |
| `ActivationGuard.InterceptedBroadcastSkipsBody` | Source/Mods/AllowTool.cs:193-214 | When a broadcast is intercepted, `localNotify` is still raised, so the original method is not invoked. The flag is reset to false, and the action is sent with `isRemote = false` and the keys observed then. |
| `ActivationGuard.LocalBroadcastRunsOnce` | Source/Mods/AllowTool.cs:193-243 | A broadcast that runs locally clears `localNotify` in the sync method's body. Nothing is sent, and the original method is invoked exactly once. |
| `ActivationGuard.ExcludedEntryIsNotSynced` | Source/Mods/AllowTool.cs:186-229 | For the three excluded entry names, whatever the sync layer would do, the proxy call is exactly `Invoke` of that entry and designator: one activation observing the installed or live keys, with `ShowMessage` running iff the suppression flag was lowered. Nothing is sent, `localNotify` and the context are untouched, the flag is lowered afterwards, and the call throws iff the method does. |
| `ActivationGuard.ProxyInvokesAtMostOnce` | Source/Mods/AllowTool.cs:184-230 | Every proxy call either stops at an intercepted broadcast and invokes nothing, or records exactly one activation of this entry and designator, observing the installed or live keys. The message is suppressed during the invocation iff the call is remote or the flag was already raised. The flag is false afterwards, even when the method throws, and the context is unchanged. |
| `ActivationGuard.RemoteNotifyAppliesOnce` | Source/Mods/AllowTool.cs:233-243 | A remote `NotifyMenuActivate` clears `localNotify` and invokes once, observing exactly the sent keys with the message suppressed. It sends nothing. The context is null afterwards on a normal return and stays installed when the method throws. |
| `ActivationGuard.LocalNotifyOnlyClearsFlag` | Source/Mods/AllowTool.cs:233-237 | A local `NotifyMenuActivate` only clears `localNotify`. |
| `ActivationGuard.IdleRestored` | Source/Mods/AllowTool.cs:180-243 | From the idle state (all flags false, no context), every proxy or notify call that returns normally ends idle again. |
| `ActivationGuard.ContextLeaksWhenReplayThrows` | Source/Mods/AllowTool.cs:237-242 | When a replayed action throws, the context stays installed, and later key queries observe the replayed keys instead of the live ones. |
| `ActivationGuard.NotifyRestoringEndsIdle` | Source/Mods/AllowTool.cs:233-243 | With the reset in a `finally`, a call from the idle state ends idle whether or not the method throws. It applies the same activations as the code as written. |
| `ActivationGuard.ReplicationGuard.ProxyActivateAndHandleResult` | Source/Mods/AllowTool.cs:184-230 | The method's new state and thrown flag are exactly those of `Proxy` on the old state. |
| `ActivationGuard.ReplicationGuard.NotifyMenuActivate` | Source/Mods/AllowTool.cs:233-243 | The method's new state and thrown flag are exactly those of `Notify` on the old state. |
| `CallRewriter.TranspileActivateCalls` | Source/Mods/AllowTool.cs:150-171 | The loop yields exactly `Rewrite` of the input. The error is logged iff no instruction calls the original method. |
| `CallRewriter.RewriteLength` | Source/Mods/AllowTool.cs:155-168 | The output is longer than the input by the number of matching calls. |
| `CallRewriter.RewriteAt` | Source/Mods/AllowTool.cs:156-167 | Input instruction i lands at i plus the number of earlier matching calls. There, a matching call becomes exactly `ldc.i4.0; call proxy`, and any other instruction is copied unchanged, so order is kept. |
| `CallRewriter.RewriteRemovesCalls` | Source/Mods/AllowTool.cs:158-163 | With a proxy distinct from the original, no call to the original remains. |
| `CallRewriter.RewriteWithoutCalls` | Source/Mods/AllowTool.cs:164-167 | A method with no matching call comes back unchanged. |
| `DesignatorOptOut.OptsOutExactly` | Source/Mods/AllowTool.cs:343-360 | Exactly the Allow Tool designators `Designator_SelectSimilarReverse`, `Designator_SelectSimilar` and `Designator_StripMine` opt out. The reverse one is among them. |
| `DesignatorOptOut.DesignateCellHooks.PrefixDesignateCell` | Source/Mods/AllowTool.cs:338-361 | `__state` is true iff the designator opts out. `dontSync` is raised in that case and untouched otherwise. Only the reverse designator is handed to `TryPickDesignatorFromReverseDesignator`. |
| `DesignatorOptOut.DesignateCellHooks.PostfixDesignateCell` | Source/Mods/AllowTool.cs:364-370 | `dontSync` is set to false only when `__state` is true. |
| `DesignatorOptOut.DesignateCellHooks.PatchedDesignate` | Source/Mods/AllowTool.cs:338-370 | Around one designation, Multiplayer's sync sees `dontSync` raised iff the designator opts out or the flag was already raised. The call throws iff the designation does. Afterwards the flag is `DontSyncAfter` of the old flag: for any other designator it is unchanged; for an opting-out one it is false on a normal return and stays raised when the designation throws, because the postfix is skipped. The reverse designator is handed over once. |
| `DesignatorOptOut.DontSyncAfterSpec` | Source/Mods/AllowTool.cs:338-370 | The hooks never change the flag for a designator that does not opt out, and always leave it false after a normal return for one that does. The flag differs from its old value exactly when the designator opts out and the call threw iff the flag was lowered before. |
| `DesignatorOptOut.DontSyncLeaksWhenDesignationThrows` | Source/Mods/AllowTool.cs:364-370 | A `Designator_SelectSimilar` whose designation throws over a lowered flag leaves `dontSync` raised after the call. |
| `DesignatorOptOut.FinalizerRestoresDontSync` | Source/Mods/AllowTool.cs:364-370 | With the lowering in a finalizer, a lowered flag stays lowered after any call, an opting-out designator always ends with it lowered, and on a normal return the result is the same as the code as written. |
| `Replication.ExactlyOnce` | Source/Mods/AllowTool.cs:184-297 | An activation of a catalog entry on an originator in any state applies nothing locally, keeps its context, and sends one envelope carrying the keys it observes. Delivered to any participant, the originator included, and including one left with a stale context or a raised flag, the envelope decodes and is applied exactly once: same entry, same designator type, message suppressed, the sent keys. The participant sends nothing and ends idle. An idle originator stays idle and sends its live keys; a context leaked at the originator is sent to every peer. |

## Findings

| source | as written | input that shows it | evidently intended | confidence | as-written member | corrected member |
|---|---|---|---|---|---|---|
| Source/Mods/AllowTool.cs:237-242 | `currentContext` is set back to null only when the replayed `ActivateAndHandleResult` returns normally; there is no `finally`. | A remote activation whose `ActivateAndHandleResult` throws, with shift captured as held while no key is held. | Reset the context in a `finally`, as the proxy already does for `supressActivationMessage`, so later key queries see the live keyboard again. | medium; not executed | `ActivationGuard.ContextLeaksWhenReplayThrows` | `ActivationGuard.NotifyRestoringEndsIdle` |
| Source/Mods/AllowTool.cs:364-370 | `dontSync` is lowered in a Harmony postfix, which does not run when the patched designation throws. | A `Designator_SelectSimilar` designation that throws while `dontSync` is false. | Lower the flag in a finalizer, so that Multiplayer's designator sync is not left switched off after the failed call. | low; not executed | `DesignatorOptOut.DontSyncLeaksWhenDesignationThrows` | `DesignatorOptOut.FinalizerRestoresDontSync` |

The classes `ReplicationGuard` and `DesignateCellHooks` keep the code as
written. The corrected behaviour exists as the state functions
`NotifyRestoring` and `DontSyncAfterWithFinalizer`, and its properties are
proved about those functions.

## Left out

- The constructor (Source/Mods/AllowTool.cs:30-90) and `MarkNoInlining` are left out. They are Harmony patch registration and reflection lookups, with no behaviour of their own. `PatchedDesignate` stands for the prefix/postfix pairing that the constructor installs.
- `StripMineDesignatorPatch` is left out. It only forwards to Multiplayer's `DesignatorPatches.DesignateMultiCell` with a fresh `Designator_Mine`, which is a foreign call.
- `TryPickDesignatorFromReverseDesignator` is opaque. The model only records that it was called, and with which designator.
- `Activator.CreateInstance` is the parameter `create`. A type it cannot instantiate is not modelled.
- The network transport, `MP.RegisterSyncWorker` and `SetContext` are left out. Only the two outcomes of calling the sync method are modelled.
- `ActivationGuard.ReplicationGuard.ProxyActivateAndHandleResult`: when the broadcast is intercepted, the sync layer's serialisation of the arguments is not modelled. A write that throws for an unknown entry, which would leave `localNotify` raised, is not modelled either. `Replication.ExactlyOnce` covers the write separately.
- What Multiplayer does with an exception that escapes a sync worker or a replayed sync method (logging, dropping) is not modelled.
- The `volatile` modifier is left out. The flags are plain fields, since the guard runs on one thread.
- `Log.Error` output is modelled only as the boolean `errorLogged`.
- The real body of `ActivateAndHandleResult` is left out. It is an abstract invocation that records its arguments, the message verdict and the keys it observes.
- Storing `originalActivateMethod` in a static field, inside the transpiler, is left out. The original and proxy methods are parameters of the rewriter.
- Harmony `CodeInstruction` exception blocks are left out. Labels are modelled only to show that the two instructions replacing a call carry none.
- Null entries or designators (a `NullReferenceException`) are not modelled.
- A CLR type is identified by its namespace and simple name. Distinct types that share both (nested types, generic instantiations, types from other assemblies) would count as one. `BuildTables` would then report a repeated handled type where `Dictionary<Type, Array>` accepts both keys.
- Entry indices are unbounded integers. The built indices are array positions, so the 32-bit `int` of the source cannot overflow.
