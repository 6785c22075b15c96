/**
 * The `Adapter` class: the bridge between the viewer engine and its host.
 * It owns the four event slots with their worker markers and the two
 * channel registries. Every method is proved against the value-level
 * model in `EventSlots` and `Channels`, where the properties of the bridge
 * are stated and proved.
 */
module OpenViewer {
  import opened Nullable
  import opened Channels
  import opened EventSlots

  class Adapter {
    // Event slots and their worker thread fields; a thread field is modelled by whether it is non-null.
    var touchUUID: string
    var touchThread: bool
    var avatarInformation: Option<string>
    var avatarPickedThread: bool
    var teleportEventParam: Option<TeleportParam>
    var teleportEventThread: bool
    var teleportedEventParam: Option<TeleportedParam>
    var teleportedEventThread: bool
    // The events raised so far towards the host's listeners, in order.
    var raised: seq<Notification>

    // `message_store`, `callback_store`, and the handler calls made so far, in order.
    var messageStore: Store
    var callbackStore: Store
    var invocations: seq<Invocation>
    // What each callback answers to a message: host code this model cannot see.
    const respond: (HandlerId, string) -> string

    /** The event-slot half of the state, as a value. */
    function Slots(): (b: Bridge)
      reads this
    {
      Bridge(touchUUID, avatarInformation, teleportEventParam, teleportedEventParam,
             touchThread, avatarPickedThread, teleportEventThread, teleportedEventThread, raised)
    }

    /** The registry half of the state, as a value. */
    function Registries(): (r: (Store, Store, seq<Invocation>))
      reads this
    {
      (messageStore, callbackStore, invocations)
    }

    ghost predicate Valid()
      reads this
    {
      WellFormed(messageStore) && WellFormed(callbackStore) && Consistent(Slots())
    }

    constructor (respond: (HandlerId, string) -> string)
      ensures Valid()
      ensures Slots() == Initial
      ensures Registries() == (map[], map[], [])
      ensures this.respond == respond
    {
      touchUUID, touchThread := "", false;
      avatarInformation, avatarPickedThread := Some(""), false;
      teleportEventParam, teleportEventThread := None, false;
      teleportedEventParam, teleportedEventThread := None, false;
      raised := [];
      messageStore, callbackStore, invocations := map[], map[], [];
      this.respond := respond;
    }

    /** `Cleanup`: aborts and forgets every worker; pending payloads stay. */
    method Cleanup()
      requires Valid()
      modifies this
      ensures Valid()
      ensures Slots() == EventSlots.Cleanup(old(Slots()))
      ensures Registries() == old(Registries())
    {
      if touchThread { touchThread := false; }
      if avatarPickedThread { avatarPickedThread := false; }
      if teleportEventThread { teleportEventThread := false; }
      if teleportedEventThread { teleportedEventThread := false; }
    }

    /** `Update`: starts a worker for every kind with a non-empty slot and no worker. */
    method Update()
      requires Valid()
      modifies this
      ensures Valid()
      ensures Slots() == EventSlots.Update(old(Slots()))
      ensures Registries() == old(Registries())
    {
      if touchUUID != "" && !touchThread {
        touchThread := true;
      }
      if !IsNullOrEmpty(avatarInformation) && !avatarPickedThread {
        avatarPickedThread := true;
      }
      if teleportEventParam.Some? && !teleportEventThread {
        teleportEventThread := true;
      }
      if teleportedEventParam.Some? && !teleportedEventThread {
        teleportedEventThread := true;
      }
    }

    /** `CallTouchTo`: remembers the touched object, if the entity manager knows it. */
    method CallTouchTo(uuid: string, known: set<string>)
      requires Valid()
      modifies this
      ensures Valid()
      ensures Slots() == Overwrite(old(Slots()), known, TouchReport(uuid))
      ensures Registries() == old(Registries())
    {
      if uuid in known {
        touchUUID := uuid;
      }
    }

    /** `CallTouched`: raises `OnTouched`. */
    method CallTouched(uuid: string)
      modifies this
      ensures raised == old(raised) + [OnTouched(uuid)]
      ensures Slots() == old(Slots()).(raised := raised)
      ensures Registries() == old(Registries())
    {
      raised := raised + [OnTouched(uuid)];
    }

    /** `TouchedThred`: the touch worker. */
    method TouchedThread()
      requires Valid() && touchThread
      modifies this
      ensures Valid()
      ensures Slots() == Deliver(old(Slots()), Touch)
      ensures Registries() == old(Registries())
    {
      CallTouched(touchUUID);
      touchUUID := "";
      touchThread := false;
    }

    /** `CallTeleport`: remembers the teleport that started. */
    method CallTeleport(regionName: string, x: Int32, y: Int32, z: Int32)
      requires Valid()
      modifies this
      ensures Valid()
      ensures Slots() == Overwrite(old(Slots()), {}, TeleportReport(TeleportParam(regionName, x, y, z)))
      ensures Registries() == old(Registries())
    {
      teleportEventParam := Some(TeleportParam(regionName, x, y, z));
    }

    /** `CallTeleportTo`: reports the teleport, then asks the protocol layer for it (not modelled). */
    method CallTeleportTo(regionName: string, x: Int32, y: Int32, z: Int32)
      requires Valid()
      modifies this
      ensures Valid()
      ensures Slots() == Overwrite(old(Slots()), {}, TeleportReport(TeleportParam(regionName, x, y, z)))
      ensures Registries() == old(Registries())
    {
      CallTeleport(regionName, x, y, z);
    }

    /** `CallTeleported`: remembers the teleport that completed. */
    method CallTeleported(uuid: string, avatar: string, x: Int32, y: Int32, z: Int32)
      requires Valid()
      modifies this
      ensures Valid()
      ensures Slots() == Overwrite(old(Slots()), {}, TeleportedReport(TeleportedParam(uuid, avatar, x, y, z)))
      ensures Registries() == old(Registries())
    {
      teleportedEventParam := Some(TeleportedParam(uuid, avatar, x, y, z));
    }

    /** `TeleportThread`: the teleport-started worker. */
    method TeleportThread()
      requires Valid() && teleportEventThread
      modifies this
      ensures Valid()
      ensures Slots() == Deliver(old(Slots()), Teleport)
      ensures Registries() == old(Registries())
    {
      raised := raised + [OnTeleport(teleportEventParam.value)];
      teleportEventParam := None;
      teleportEventThread := false;
    }

    /** `TeleportedThread`: the teleported worker. */
    method TeleportedThread()
      requires Valid() && teleportedEventThread
      modifies this
      ensures Valid()
      ensures Slots() == Deliver(old(Slots()), Teleported)
      ensures Registries() == old(Registries())
    {
      raised := raised + [OnTeleported(teleportedEventParam.value)];
      teleportedEventParam := None;
      teleportedEventThread := false;
    }

    /** `CallAvatarPicked`: remembers the picked avatar; the known-avatar check is disabled, so any value is stored. */
    method CallAvatarPicked(information: Option<string>)
      requires Valid()
      modifies this
      ensures Valid()
      ensures Slots() == Overwrite(old(Slots()), {}, AvatarReport(information))
      ensures Registries() == old(Registries())
    {
      avatarInformation := information;
    }

    /** `AvatarPickedThredFunction`: the avatar-pick worker; a null slot raises nothing and stays null. */
    method AvatarPickedThread()
      requires Valid() && avatarPickedThread
      modifies this
      ensures Valid()
      ensures Slots() == Deliver(old(Slots()), AvatarPick)
      ensures Registries() == old(Registries())
    {
      if avatarInformation.Some? {
        raised := raised + [OnAvatarPicked(avatarInformation.value)];
        avatarInformation := Some("");
      }
      avatarPickedThread := false;
    }

    /** `RegisterMessage`: appends a handler to the channel's list, creating the list if needed. */
    method RegisterMessage(action: string, handler: HandlerId)
      requires Valid()
      modifies this
      ensures Valid()
      ensures messageStore == Register(old(messageStore), action, handler)
      ensures callbackStore == old(callbackStore) && invocations == old(invocations)
      ensures Slots() == old(Slots())
    {
      if action in messageStore {
        messageStore := messageStore[action := messageStore[action] + [handler]];
      } else {
        messageStore := messageStore[action := [handler]];
      }
    }

    /**
     * `SendMessage`: calls every handler of the channel once, in registration
     * order, with the same parameters; the result is always null.
     */
    method SendMessage(action: string, parameters: string) returns (result: Option<string>)
      requires Valid()
      modifies this
      ensures Valid()
      ensures result == None
      ensures invocations == old(invocations) + Broadcast(Handlers(old(messageStore), action), parameters)
      ensures messageStore == old(messageStore) && callbackStore == old(callbackStore)
      ensures Slots() == old(Slots())
    {
      if action in messageStore {
        var handlers := messageStore[action];
        for i := 0 to |handlers|
          invariant invocations == old(invocations) + Broadcast(handlers[..i], parameters)
          invariant messageStore == old(messageStore) && callbackStore == old(callbackStore)
          invariant Slots() == old(Slots())
        {
          assert handlers[..i + 1][..i] == handlers[..i];
          invocations := invocations + [MessageCall(handlers[i], parameters)];
        }
        assert handlers[..|handlers|] == handlers;
      }
      return None;
    }

    /** `RegisterCallback`: appends a callback to the channel's list, creating the list if needed. */
    method RegisterCallback(action: string, callback: HandlerId)
      requires Valid()
      modifies this
      ensures Valid()
      ensures callbackStore == Register(old(callbackStore), action, callback)
      ensures messageStore == old(messageStore) && invocations == old(invocations)
      ensures Slots() == old(Slots())
    {
      if action in callbackStore {
        callbackStore := callbackStore[action := callbackStore[action] + [callback]];
      } else {
        callbackStore := callbackStore[action := [callback]];
      }
    }

    /**
     * `RunCallback`: the answer of the channel's first callback, which is the
     * only one called; "" for a channel without callbacks.
     */
    method RunCallback(action: string, message: string) returns (answer: string)
      requires Valid()
      modifies this
      ensures Valid()
      ensures answer == Answer(old(callbackStore), respond, action, message)
      ensures invocations == old(invocations) +
                (if Handlers(old(callbackStore), action) == [] then []
                 else [CallbackCall(Handlers(old(callbackStore), action)[0], message)])
      ensures messageStore == old(messageStore) && callbackStore == old(callbackStore)
      ensures Slots() == old(Slots())
    {
      if action in callbackStore && callbackStore[action] != [] {
        var first := callbackStore[action][0];
        invocations := invocations + [CallbackCall(first, message)];
        return respond(first, message);
      }
      return "";
    }

    /** `Dispatch`: raises `OnDispatch` with the action and message as given. */
    method Dispatch(action: string, message: string)
      modifies this
      ensures raised == old(raised) + [OnDispatch(action, message)]
      ensures Slots() == old(Slots()).(raised := raised)
      ensures Registries() == old(Registries())
    {
      raised := raised + [OnDispatch(action, message)];
    }
  }

  /**
   * First responder wins, on a live adapter: after callbacks 1, 2 and 3 are
   * registered on a channel, running it answers with callback 1 and calls
   * nothing else.
   */
  method FirstRegisteredAnswers(respond: (HandlerId, string) -> string, message: string)
    returns (answer: string, calls: seq<Invocation>)
    ensures answer == respond(1, message)
    ensures calls == [CallbackCall(1, message)]
  {
    var adapter := new Adapter(respond);
    adapter.RegisterCallback("channel", 1);
    adapter.RegisterCallback("channel", 2);
    adapter.RegisterCallback("channel", 3);
    answer := adapter.RunCallback("channel", message);
    calls := adapter.invocations;
  }

  /**
   * Multicast, on a live adapter: two handlers on one channel are called once
   * each, in registration order; the result is null.
   */
  method BothHandlersCalledInOrder(parameters: string) returns (result: Option<string>, calls: seq<Invocation>)
    ensures result == None
    ensures calls == [MessageCall(7, parameters), MessageCall(8, parameters)]
  {
    var adapter := new Adapter((h: HandlerId, m: string) => "");
    adapter.RegisterMessage("channel", 7);
    adapter.RegisterMessage("channel", 8);
    result := adapter.SendMessage("channel", parameters);
    calls := adapter.invocations;
  }

  /**
   * The scenario of `EventSlots.TeleportedDeliveredOnce`, exercised through
   * the imperative methods of a live adapter: report, tick, the worker runs;
   * the listener sees that teleport once, and another tick starts no worker.
   */
  method TeleportedSeenOnce() returns (seen: seq<Notification>, restarted: bool)
    ensures seen == [OnTeleported(TeleportedParam("u1", "Alice", 10, 20, 30))]
    ensures !restarted
  {
    var adapter := new Adapter((h: HandlerId, m: string) => "");
    adapter.CallTeleported("u1", "Alice", 10, 20, 30);
    adapter.Update();
    adapter.TeleportedThread();
    adapter.Update();
    seen, restarted := adapter.raised, adapter.teleportedEventThread;
  }
}
