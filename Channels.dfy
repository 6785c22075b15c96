/**
 * The adapter's two named-channel registries: `message_store` (plugin to
 * plugin, every handler is called) and `callback_store` (host to viewer,
 * only the first callback answers). Both map a channel name to the list of
 * handlers registered on it, in registration order, and only ever grow.
 * Handlers are opaque ids; what a callback answers is given by a function
 * from the callback and the message to a string.
 */
module Channels {
  import opened Nullable

  type HandlerId = nat

  /** One call of a registered delegate, as observed from outside. */
  datatype Invocation =
    | MessageCall(handler: HandlerId, parameters: string)
    | CallbackCall(handler: HandlerId, message: string)

  type Store = map<string, seq<HandlerId>>

  /** Every channel the store knows has at least one handler: lists are created only to receive one. */
  predicate WellFormed(store: Store)
  {
    forall c :: c in store ==> store[c] != []
  }

  /** The handlers of channel `c`, the empty list for a channel never registered. */
  function Handlers(store: Store, c: string): (hs: seq<HandlerId>)
  {
    if c in store then store[c] else []
  }

  /** `RegisterMessage` / `RegisterCallback`: append to the channel's list, creating it if absent. */
  function Register(store: Store, c: string, h: HandlerId): (r: Store)
    ensures c in r && Handlers(r, c) == Handlers(store, c) + [h]
    ensures c !in store ==> r[c] == [h]
    ensures forall d :: d != c ==> Handlers(r, d) == Handlers(store, d)
    ensures r.Keys == store.Keys + {c}
    ensures WellFormed(store) ==> WellFormed(r)
  {
    if c in store then store[c := store[c] + [h]] else store[c := [h]]
  }

  /** Registering the handlers `hs` on channel `c`, one after the other. */
  function RegisterAll(store: Store, c: string, hs: seq<HandlerId>): (r: Store)
    decreases |hs|
  {
    if hs == [] then store else RegisterAll(Register(store, c, hs[0]), c, hs[1..])
  }

  /** Repeated registration appends in order, duplicates included, and leaves every other channel alone. */
  lemma {:induction false} RegisterAllAppends(store: Store, c: string, hs: seq<HandlerId>)
    ensures Handlers(RegisterAll(store, c, hs), c) == Handlers(store, c) + hs
    ensures forall d :: d != c ==> Handlers(RegisterAll(store, c, hs), d) == Handlers(store, d)
    decreases |hs|
  {
    if hs != [] {
      RegisterAllAppends(Register(store, c, hs[0]), c, hs[1..]);
      assert Handlers(store, c) + [hs[0]] + hs[1..] == Handlers(store, c) + hs;
    }
  }

  /**
   * The invocations `SendMessage` performs for the handler list `hs`:
   * one call per registration, in registration order, each with the same parameters.
   */
  function Broadcast(hs: seq<HandlerId>, parameters: string): (r: seq<Invocation>)
    ensures |r| == |hs|
    ensures forall k :: 0 <= k < |hs| ==> r[k] == MessageCall(hs[k], parameters)
    decreases |hs|
  {
    if hs == [] then []
    else Broadcast(hs[..|hs| - 1], parameters) + [MessageCall(hs[|hs| - 1], parameters)]
  }

  /** Exactly once: a handler is called as many times as it was registered on the channel. */
  lemma {:induction false} BroadcastExactlyOnce(hs: seq<HandlerId>, parameters: string, h: HandlerId)
    ensures multiset(Broadcast(hs, parameters))[MessageCall(h, parameters)] == multiset(hs)[h]
    decreases |hs|
  {
    if hs != [] {
      var init, last := hs[..|hs| - 1], hs[|hs| - 1];
      BroadcastExactlyOnce(init, parameters, h);
      var calls := Broadcast(init, parameters);
      assert Broadcast(hs, parameters) == calls + [MessageCall(last, parameters)];
      assert multiset(calls + [MessageCall(last, parameters)]) == multiset(calls) + multiset{MessageCall(last, parameters)};
      assert hs == init + [last];
      assert multiset(hs) == multiset(init) + multiset{last};
    }
  }

  /** The callback `RunCallback` calls on channel `c`: the first one registered, if any. */
  function FirstCallback(store: Store, c: string): (r: Option<HandlerId>)
    ensures r.None? <==> Handlers(store, c) == []
    ensures r.Some? ==> r.value == Handlers(store, c)[0]
  {
    if c in store && store[c] != [] then Some(store[c][0]) else None
  }

  /** What `RunCallback(c, m)` returns: the first callback's answer, or "" when the channel has none. */
  function Answer(store: Store, respond: (HandlerId, string) -> string, c: string, m: string): (answer: string)
  {
    match FirstCallback(store, c)
    case None => ""
    case Some(h) => respond(h, m)
  }

  /**
   * First responder wins: registering more callbacks never changes the answer of a channel
   * that already has one; an unregistered channel answers "" until its first registration,
   * whose callback then answers for good.
   */
  lemma {:induction false} FirstResponderWins(store: Store, respond: (HandlerId, string) -> string,
                                              c: string, hs: seq<HandlerId>, m: string)
    ensures Handlers(store, c) != [] ==> Answer(RegisterAll(store, c, hs), respond, c, m) == Answer(store, respond, c, m)
    ensures Handlers(store, c) == [] ==> Answer(store, respond, c, m) == ""
    ensures Handlers(store, c) == [] && hs != [] ==> Answer(RegisterAll(store, c, hs), respond, c, m) == respond(hs[0], m)
  {
    RegisterAllAppends(store, c, hs);
    var after := Handlers(RegisterAll(store, c, hs), c);
    assert after == Handlers(store, c) + hs;
    if Handlers(store, c) != [] {
      assert after[0] == Handlers(store, c)[0];
    } else if hs != [] {
      assert after[0] == hs[0];
    }
  }

  /** Registering on one channel never changes another channel's answer. */
  lemma RegisterIsolated(store: Store, respond: (HandlerId, string) -> string, c: string, d: string, h: HandlerId, m: string)
    requires c != d
    ensures Answer(Register(store, c, h), respond, d, m) == Answer(store, respond, d, m)
    ensures Handlers(Register(store, c, h), d) == Handlers(store, d)
  {
  }
}
