# 3Di OpenViewer adapter: event bridge and channel registries

This project models the in-process event bridge of the 3Di OpenViewer
`Adapter` class (`3DiOpenViewer/Adapter/Adapter.cs`), the facade between the
viewer engine and its scripting host, and proves its properties in Dafny.

The bridge has two parts:

* **Channel registries.** `message_store` maps a channel name to the message
  handlers registered on it. `SendMessage` calls all of them, in registration
  order, and returns null. `callback_store` does the same for callbacks, but
  `RunCallback` calls only the first one registered and returns its answer,
  or "" for an unknown channel. Both registries only grow.
* **Event slots and the pump.** Touch, avatar pick, teleport started and
  teleported each have one payload slot and one worker-thread field. The
  `Call*` report methods overwrite the slot. Only a touch is screened, by the
  entity manager's existence check; the avatar check is commented out in the
  source. `Update` starts a worker for every kind whose slot is non-empty and
  which has no worker. A worker raises the kind's listener event with the
  slot's current payload, empties the slot and forgets the thread.
  `Cleanup` aborts and forgets the workers and leaves the payloads alone.

Files:

* `Nullable.dfy` holds C# null as `Option` and `string.IsNullOrEmpty`.
* `Channels.dfy` holds the registries as values: registration, the multicast
  trace, first-responder selection, and their lemmas.
* `EventSlots.dfy` holds the slots and markers as a value `Bridge`. It has one
  transition function per operation, executions as step sequences, and their
  lemmas.
* `ViewerSettings.dfy` holds the chat-history lookup and the flag defaults.
* `Adapter.dfy` holds the `OpenViewer.Adapter` class. It has one field per
  slot, per thread marker and per registry, plus the trace of raised events
  and the trace of handler calls. Each method is proved against the transition
  functions above. Three client methods prove concrete scenarios on a live
  adapter.

Modelling choices:

* A thread field is a boolean: non-null means "in flight". Threads are not
  modelled. An execution interleaves report, `Update`, worker and `Cleanup`
  steps, and a worker step runs only for a kind in flight.
* Handlers are opaque ids. What a callback answers is a function fixed when
  the adapter is built (`respond`).
* A raised listener event is one entry in `raised`, however many subscribers
  the C# event has, including none.
* `avatarInformation` may be null, because `CallAvatarPicked` stores whatever
  the host passes. A null slot is never started by `Update`. If a worker finds
  the slot null, it raises nothing and leaves the slot null. `touchUUID` is a
  non-null string, because it is only stored after the entity manager has
  recognised it.
* The entity manager's known ids are a `set<string>` parameter of `CallTouchTo`.
* The public `CallTouched` raises `OnTouched` for any id, without the entity
  check. Executions in `EventSlots` cover only the report, `Update`, worker and
  `Cleanup` path; direct `CallTouched` calls fall outside them, so
  `UnknownTouchNeverNotified` says nothing about those.
* Teleport coordinates are C#'s 32-bit `int` (`EventSlots.Int32`).
* The model follows the code as written. Avatar picks are not screened: the known-avatar check at
  `Adapter.cs` line 417 is commented out. `Cleanup` does not discard pending
  payloads, so the next `Update` starts them again. A listener exception is
  not caught, as noted under "Left out".

## Model

| member | source | states |
|---|---|---|
| Channels.Register | 3DiOpenViewer/Adapter/Adapter.cs:699-710 | registration appends the handler at the end of the channel's list; a new channel gets a one-element list; every other channel is unchanged; no list is ever empty |
| Channels.RegisterAllAppends | 3DiOpenViewer/Adapter/Adapter.cs:727-738 | registering a sequence of handlers appends exactly that sequence, duplicates included, and leaves other channels alone |
| Channels.Broadcast | 3DiOpenViewer/Adapter/Adapter.cs:714-719 | the calls a send makes: one per registration, the k-th to the k-th registered handler, each with the same parameters |
| Channels.BroadcastExactlyOnce | 3DiOpenViewer/Adapter/Adapter.cs:712-722 | each handler is called exactly as many times as it is registered on the channel, and never with other parameters |
| Channels.FirstCallback | 3DiOpenViewer/Adapter/Adapter.cs:742-747 | the callback selected is the first one registered; none exactly when the channel has no callbacks |
| Channels.FirstResponderWins | 3DiOpenViewer/Adapter/Adapter.cs:740-750 | once a channel has a callback, registering more never changes its answer; an unregistered channel answers "" until its first registration, whose callback then answers |
| Channels.RegisterIsolated | 3DiOpenViewer/Adapter/Adapter.cs:727-738 | registering on one channel changes neither the handlers nor the answer of any other channel |
| EventSlots.Announcement | 3DiOpenViewer/Adapter/Adapter.cs:372-388 | the event a delivery raises for any report other than a null avatar string: that report's kind, carrying its argument, an empty one included |
| EventSlots.Overwrite | 3DiOpenViewer/Adapter/Adapter.cs:353-370 | a report overwrites its own kind's slot, whether or not a delivery is in flight (a touch only when the entity is known, otherwise nothing changes); other slots, all markers and raised events are unchanged; it makes the slot pending exactly when the payload is non-empty |
| EventSlots.Update | 3DiOpenViewer/Adapter/Adapter.cs:120-154 | afterwards a kind is in flight exactly when it already was or its slot was non-empty; no slot and no raised event changes |
| EventSlots.Delivery | 3DiOpenViewer/Adapter/Adapter.cs:426-436 | a delivery raises at most one event, of its own kind, carrying whatever non-null payload the slot holds, even one that was emptied while the worker was in flight (OnTouched(""), OnAvatarPicked("")); a null avatar slot raises nothing; a pending slot always raises one |
| EventSlots.Deliver | 3DiOpenViewer/Adapter/Adapter.cs:231-239 | a worker appends its delivery to the raised events, clears its marker, sets its slot to "" or null (a null avatar slot stays null), and leaves every other kind as it was |
| EventSlots.Cleanup | 3DiOpenViewer/Adapter/Adapter.cs:84-118 | every marker is cleared; payloads, and so what is pending, are untouched |
| EventSlots.CleanupKeepsPending | 3DiOpenViewer/Adapter/Adapter.cs:84-154 | cleanup is idempotent, and the next Update restarts exactly the kinds that were pending before cleanup |
| EventSlots.LastReportWins | 3DiOpenViewer/Adapter/Adapter.cs:353-388 | two reports of one kind, then Update and the worker, raise one event carrying the later (accepted) payload, whether or not a worker was already in flight, in which case the earlier payload is lost; the slot is then empty and another Update starts nothing |
| EventSlots.Next | 3DiOpenViewer/Adapter/Adapter.cs:84-154 | every step (a report with the entities known at that moment, a tick, a worker run, a cleanup) keeps a teleport worker from running without its record, and only appends to the raised events |
| EventSlots.Run | 3DiOpenViewer/Adapter/Adapter.cs:120-154 | every execution keeps the teleport-record invariant and only appends to the raised events |
| EventSlots.StartedAtMostOnce | 3DiOpenViewer/Adapter/Adapter.cs:125-153 | with no worker run and no cleanup for a kind, an execution starts it at most once, and never when it is already in flight |
| EventSlots.TouchStaysQuiet | 3DiOpenViewer/Adapter/Adapter.cs:210-218 | from an empty, idle touch slot, any step other than a touch report of a known entity keeps the slot empty and idle and raises no OnTouched |
| EventSlots.UnknownTouchNeverNotified | 3DiOpenViewer/Adapter/Adapter.cs:210-239 | from an empty, idle touch slot, an execution whose touch reports each name an entity unknown at that moment never raises OnTouched, however the known entities change between steps |
| EventSlots.TeleportedDeliveredOnce | 3DiOpenViewer/Adapter/Adapter.cs:367-388 | one teleported report, one tick and its worker raise exactly that teleported event; the record is then null and a further Update changes nothing |
| ViewerSettings.MessageFromHistory | 3DiOpenViewer/Adapter/Adapter.cs:315-323 | the message at the index, or "" when the index is at or past the end of the history |
| ViewerSettings.FlagOrDefault | 3DiOpenViewer/Adapter/Adapter.cs:655-656 | a null or empty flag becomes the default; any other flag is kept; the result is never empty |
| ViewerSettings.TickOnValue | 3DiOpenViewer/Adapter/Adapter.cs:653-659 | a null or empty flag writes "true"; any other flag is written as given |
| ViewerSettings.FixDirectionalValue | 3DiOpenViewer/Adapter/Adapter.cs:669-675 | a null or empty flag writes "false"; any other flag is written as given |
| OpenViewer.Adapter.constructor | 3DiOpenViewer/Adapter/Adapter.cs:32-75 | a new adapter has empty strings, null records, no workers, empty registries and no calls made |
| OpenViewer.Adapter.Cleanup | 3DiOpenViewer/Adapter/Adapter.cs:84-118 | the new slot state is the cleanup of the old one; registries unchanged |
| OpenViewer.Adapter.Update | 3DiOpenViewer/Adapter/Adapter.cs:120-154 | the new slot state is the Update of the old one; registries unchanged |
| OpenViewer.Adapter.CallTouchTo | 3DiOpenViewer/Adapter/Adapter.cs:210-218 | the touch slot takes the id only if the entity is known; nothing else changes |
| OpenViewer.Adapter.CallTouched | 3DiOpenViewer/Adapter/Adapter.cs:225-229 | raises OnTouched with the id; nothing else changes |
| OpenViewer.Adapter.TouchedThread | 3DiOpenViewer/Adapter/Adapter.cs:231-239 | requires the touch worker to be in flight; the new slot state is the touch delivery of the old one |
| OpenViewer.Adapter.CallTeleport | 3DiOpenViewer/Adapter/Adapter.cs:353-356 | the teleport slot takes the new record unconditionally; nothing else changes |
| OpenViewer.Adapter.CallTeleportTo | 3DiOpenViewer/Adapter/Adapter.cs:338-343 | reports the teleport as CallTeleport does |
| OpenViewer.Adapter.CallTeleported | 3DiOpenViewer/Adapter/Adapter.cs:367-370 | the teleported slot takes the new record unconditionally; nothing else changes |
| OpenViewer.Adapter.TeleportThread | 3DiOpenViewer/Adapter/Adapter.cs:372-379 | requires the teleport worker to be in flight; the new slot state is the teleport delivery of the old one |
| OpenViewer.Adapter.TeleportedThread | 3DiOpenViewer/Adapter/Adapter.cs:381-388 | requires the teleported worker to be in flight; the new slot state is the teleported delivery of the old one |
| OpenViewer.Adapter.CallAvatarPicked | 3DiOpenViewer/Adapter/Adapter.cs:414-419 | the avatar slot takes the argument unconditionally, null included; nothing else changes |
| OpenViewer.Adapter.AvatarPickedThread | 3DiOpenViewer/Adapter/Adapter.cs:426-436 | requires the avatar worker to be in flight; the new slot state is the avatar delivery of the old one |
| OpenViewer.Adapter.RegisterMessage | 3DiOpenViewer/Adapter/Adapter.cs:699-710 | the message store becomes the registration of the handler on the channel; nothing else changes |
| OpenViewer.Adapter.SendMessage | 3DiOpenViewer/Adapter/Adapter.cs:712-722 | returns null; the calls made are the broadcast to the channel's handlers, so none for an unknown channel; registries and slots unchanged |
| OpenViewer.Adapter.RegisterCallback | 3DiOpenViewer/Adapter/Adapter.cs:727-738 | the callback store becomes the registration of the callback on the channel; nothing else changes |
| OpenViewer.Adapter.RunCallback | 3DiOpenViewer/Adapter/Adapter.cs:740-750 | returns the first callback's answer, or "" for a channel without callbacks; calls only that first callback; registries and slots unchanged |
| OpenViewer.Adapter.Dispatch | 3DiOpenViewer/Adapter/Adapter.cs:755-759 | raises OnDispatch with the action and message as given; nothing else changes |
| OpenViewer.FirstRegisteredAnswers | 3DiOpenViewer/Adapter/Adapter.cs:740-750 | after callbacks 1, 2 and 3 are registered on a channel, running it answers with callback 1 and calls only callback 1 |
| OpenViewer.BothHandlersCalledInOrder | 3DiOpenViewer/Adapter/Adapter.cs:712-722 | two handlers on a channel are each called once, in registration order, and the send returns null |
| OpenViewer.TeleportedSeenOnce | 3DiOpenViewer/Adapter/Adapter.cs:367-388 | on a live adapter, report, Update and the worker raise the teleported event once; another Update starts no worker |

## Left out

- Threads: `Thread` creation, `Start` and `Abort` are replaced by the in-flight markers and explicit worker steps. Each worker body is one atomic step. In the source, a report that lands between the listener call and the clearing assignment is overwritten and lost; this model does not capture that window. A worker aborted by `Cleanup` in the middle of its listener call is not modelled either.
- Listener exceptions: an exception thrown by a listener would stop a worker before it clears its slot and marker. Listeners here always return.
- SendMessage: handlers here always return and never call back into the adapter. In the source, a handler that throws stops the broadcast and the exception leaves `SendMessage`. A handler that registers on the channel being sent to changes the list under the `foreach`, and the next iteration throws `InvalidOperationException`.
- BroadcastExactlyOnce: holds only for handlers that neither throw nor register on the channel being sent to, for the reasons in the line above.
- RunCallback: the answer is a non-null string. In the source a callback may return null, and `RunCallback` then returns null. A callback that throws makes `RunCallback` throw.
- OpenViewer.Adapter.TeleportThread and OpenViewer.Adapter.TeleportedThread: these require their worker to be in flight. In the source both are `public`. Called directly with a null record while `OnTeleport` or `OnTeleported` has a subscriber, they throw `NullReferenceException`. The model does not cover those direct calls.
- Subscriber lists of the C# events (`OnTouched`, `OnTeleport`, ...): raising an event is one trace entry, whatever the number of subscribers.
- Message handler return values are discarded by the source and are not modelled. The `object` parameter of `SendMessage` is modelled as a string, which the bridge never inspects.
- Calls into the engine managers that the adapter only forwards: login and logout, sit and stand, IM and chat sending, avatar movement and animation, counts, region name, user ids, world time, and the protocol-layer `TouchTo` and `Teleport` requests inside `CallTouchTo` and `CallTeleportTo`. Their code is not part of this model.
- Camera functions and position getters: these are floating-point code (clamping, radian conversion, `ToString("0.000")` formatting).
- `Util.ColorfFromStringRGB` and `Util.Vector3DFromStringXYZ` are not part of this model. `CallSetWorldAmbientColor` and the fixed-directional colour and rotation setters are therefore left out.
- `CallDebugMessage`, `CallReceiveMessaged`, `CallOpenWindow` and `CallStateChanged` only raise a C# event, like `Dispatch`, and are left out.
- `Initialize` only stores the engine reference.
- RegisterMessage, SendMessage, RegisterCallback, RunCallback: null arguments are not modelled; channel names are non-null strings and handlers are ids that are always present. In the source a null channel name makes `ContainsKey` throw `ArgumentNullException` in all four methods. A null handler or callback is accepted by `List.Add`; the next `SendMessage` on that channel throws `NullReferenceException` when it reaches the null handler, after the handlers registered before it have run, and the next `RunCallback` throws when the null callback is the first one.
- `CallTouchTo` with a null id is not modelled: the entity manager's behaviour on null is not visible. The strings inside the teleport records are taken as non-null.
- ViewerSettings.MessageFromHistory: requires a non-negative index. In the source a negative index makes the array access throw.
- ViewerSettings.TickOnValue and ViewerSettings.FixDirectionalValue give the value written to the viewer's property; the viewer object itself is not modelled.
