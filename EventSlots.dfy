/**
 * The adapter's four event slots and the pump that drains them.
 *
 * Each kind of event (touch, avatar pick, teleport started, teleported) has
 * one payload slot and one "in flight" marker (the kind's worker thread
 * field being non-null). Reporting overwrites the slot; the periodic
 * `Update` starts a delivery for every kind whose slot is non-empty and
 * which has none in flight; a delivery raises the kind's listener event
 * with the slot's current payload, then empties the slot and clears the
 * marker; `Cleanup` clears the markers. Threads are abstracted away: an
 * execution is an interleaving of report, update, deliver and cleanup steps.
 */
module EventSlots {
  import opened Nullable

  /** C#'s 32-bit `int`, the type of the teleport coordinates. */
  newtype Int32 = x: int | -0x8000_0000 <= x < 0x8000_0000

  datatype EventKind = Touch | AvatarPick | Teleport | Teleported

  /** The record behind `teleportEventParam`. */
  datatype TeleportParam = TeleportParam(regionName: string, x: Int32, y: Int32, z: Int32)

  /** The record behind `teleportedEventParam`. */
  datatype TeleportedParam = TeleportedParam(avatarUUID: string, avatarName: string, x: Int32, y: Int32, z: Int32)

  /** An event raised towards the host's listeners. */
  datatype Notification =
    | OnTouched(uuid: string)
    | OnAvatarPicked(information: string)
    | OnTeleport(teleport: TeleportParam)
    | OnTeleported(teleported: TeleportedParam)
    | OnDispatch(action: string, message: string)

  /** A call of one of the report entry points, with its argument. */
  datatype Report =
    | TouchReport(uuid: string)
    | AvatarReport(information: Option<string>)
    | TeleportReport(teleport: TeleportParam)
    | TeleportedReport(teleported: TeleportedParam)

  /** The slot fields, the thread fields (as in-flight markers) and the notifications raised so far. */
  datatype Bridge = Bridge(
    touchUUID: string,
    avatarInformation: Option<string>,
    teleportParam: Option<TeleportParam>,
    teleportedParam: Option<TeleportedParam>,
    touchBusy: bool,
    avatarBusy: bool,
    teleportBusy: bool,
    teleportedBusy: bool,
    raised: seq<Notification>)

  /** The state of a freshly constructed adapter: empty strings, null records, no threads. */
  const Initial: Bridge := Bridge("", Some(""), None, None, false, false, false, false, [])

  function KindOf(r: Report): (k: EventKind)
  {
    match r
    case TouchReport(_) => Touch
    case AvatarReport(_) => AvatarPick
    case TeleportReport(_) => Teleport
    case TeleportedReport(_) => Teleported
  }

  /** `n` is an event of kind `k`. */
  predicate Announces(n: Notification, k: EventKind)
  {
    match n
    case OnTouched(_) => k == Touch
    case OnAvatarPicked(_) => k == AvatarPick
    case OnTeleport(_) => k == Teleport
    case OnTeleported(_) => k == Teleported
    case OnDispatch(_, _) => false
  }

  /** The guard `Update` tests on the slot: a non-empty string or a non-null record. */
  predicate Pending(s: Bridge, k: EventKind)
  {
    match k
    case Touch => s.touchUUID != ""
    case AvatarPick => !IsNullOrEmpty(s.avatarInformation)
    case Teleport => s.teleportParam.Some?
    case Teleported => s.teleportedParam.Some?
  }

  /** The kind's worker thread field is non-null. */
  predicate InFlight(s: Bridge, k: EventKind)
  {
    match k
    case Touch => s.touchBusy
    case AvatarPick => s.avatarBusy
    case Teleport => s.teleportBusy
    case Teleported => s.teleportedBusy
  }

  /** Slot `k` holds the same payload in `s` and `t`. */
  predicate SameSlot(s: Bridge, t: Bridge, k: EventKind)
  {
    match k
    case Touch => s.touchUUID == t.touchUUID
    case AvatarPick => s.avatarInformation == t.avatarInformation
    case Teleport => s.teleportParam == t.teleportParam
    case Teleported => s.teleportedParam == t.teleportedParam
  }

  /** The slot of `r`'s kind holds exactly `r`'s argument. */
  predicate Holds(s: Bridge, r: Report)
  {
    match r
    case TouchReport(u) => s.touchUUID == u
    case AvatarReport(i) => s.avatarInformation == i
    case TeleportReport(p) => s.teleportParam == Some(p)
    case TeleportedReport(p) => s.teleportedParam == Some(p)
  }

  /**
   * A teleport delivery only runs with its record present: the marker is set
   * only while the record is non-null, and the record is nulled only together
   * with the marker.
   */
  predicate Consistent(s: Bridge)
  {
    && (s.teleportBusy ==> s.teleportParam.Some?)
    && (s.teleportedBusy ==> s.teleportedParam.Some?)
  }

  /** Only a touch is screened: its id must be an entity the entity manager currently knows. */
  predicate Accepted(r: Report, known: set<string>)
  {
    r.TouchReport? ==> r.uuid in known
  }

  /** A report that, once stored, makes its slot pending. */
  predicate Fills(r: Report)
  {
    match r
    case TouchReport(u) => u != ""
    case AvatarReport(i) => !IsNullOrEmpty(i)
    case _ => true
  }

  /** A report whose payload a worker hands on: anything but a null avatar string. */
  predicate Carries(r: Report)
  {
    !(r.AvatarReport? && r.information.None?)
  }

  /** The event a delivery of `r`'s payload raises, an empty one included. */
  function Announcement(r: Report): (n: Notification)
    requires Carries(r)
    ensures Announces(n, KindOf(r))
  {
    match r
    case TouchReport(u) => OnTouched(u)
    case AvatarReport(i) => OnAvatarPicked(i.value)
    case TeleportReport(p) => OnTeleport(p)
    case TeleportedReport(p) => OnTeleported(p)
  }

  /**
   * `CallTouchTo`, `CallAvatarPicked`, `CallTeleport`, `CallTeleported`:
   * overwrite the kind's slot (a touch only when the entity is known),
   * whether or not a delivery is in flight, and touch nothing else.
   */
  function Overwrite(s: Bridge, known: set<string>, r: Report): (t: Bridge)
    ensures Accepted(r, known) ==> Holds(t, r)
    ensures !Accepted(r, known) ==> t == s
    ensures forall k :: k != KindOf(r) ==> SameSlot(s, t, k)
    ensures forall k :: InFlight(t, k) == InFlight(s, k)
    ensures Pending(t, KindOf(r)) == if Accepted(r, known) then Fills(r) else Pending(s, KindOf(r))
    ensures t.raised == s.raised
    ensures Consistent(s) ==> Consistent(t)
  {
    match r
    case TouchReport(u) => if u in known then s.(touchUUID := u) else s
    case AvatarReport(i) => s.(avatarInformation := i)
    case TeleportReport(p) => s.(teleportParam := Some(p))
    case TeleportedReport(p) => s.(teleportedParam := Some(p))
  }

  /**
   * `Update`: a kind is in flight afterwards exactly when it was already,
   * or its slot was non-empty. Slots and raised events are not touched.
   */
  function Update(s: Bridge): (t: Bridge)
    ensures forall k :: InFlight(t, k) == (InFlight(s, k) || Pending(s, k))
    ensures forall k :: SameSlot(s, t, k) && Pending(t, k) == Pending(s, k)
    ensures t.raised == s.raised
    ensures Consistent(s) ==> Consistent(t)
  {
    var s1 := if s.touchUUID != "" && !s.touchBusy then s.(touchBusy := true) else s;
    var s2 := if !IsNullOrEmpty(s1.avatarInformation) && !s1.avatarBusy then s1.(avatarBusy := true) else s1;
    var s3 := if s2.teleportParam.Some? && !s2.teleportBusy then s2.(teleportBusy := true) else s2;
    if s3.teleportedParam.Some? && !s3.teleportedBusy then s3.(teleportedBusy := true) else s3
  }

  /**
   * The events one delivery of kind `k` raises: the slot's current payload,
   * except for a null avatar string, which raises nothing.
   */
  function Delivery(s: Bridge, k: EventKind): (r: seq<Notification>)
    requires Consistent(s) && InFlight(s, k)
    ensures |r| <= 1
    ensures forall n :: n in r ==> Announces(n, k)
    ensures Pending(s, k) ==> |r| == 1
    ensures forall rep :: KindOf(rep) == k && Holds(s, rep) && Carries(rep) ==> r == [Announcement(rep)]
    ensures k == AvatarPick && s.avatarInformation.None? ==> r == []
  {
    match k
    case Touch => [OnTouched(s.touchUUID)]
    case AvatarPick => if s.avatarInformation.Some? then [OnAvatarPicked(s.avatarInformation.value)] else []
    case Teleport => [OnTeleport(s.teleportParam.value)]
    case Teleported => [OnTeleported(s.teleportedParam.value)]
  }

  /**
   * The delivery bodies (`TouchedThred`, `AvatarPickedThredFunction`,
   * `TeleportThread`, `TeleportedThread`): raise the payload, empty the slot,
   * clear the marker. Every other kind is left as it was.
   */
  function Deliver(s: Bridge, k: EventKind): (t: Bridge)
    requires Consistent(s) && InFlight(s, k)
    ensures !InFlight(t, k) && !Pending(t, k)
    ensures forall j :: j != k ==> InFlight(t, j) == InFlight(s, j) && SameSlot(s, t, j)
    ensures t.raised == s.raised + Delivery(s, k)
    ensures k == Touch ==> t.touchUUID == ""
    ensures k == AvatarPick ==> t.avatarInformation == if s.avatarInformation.None? then None else Some("")
    ensures k == Teleport ==> t.teleportParam.None?
    ensures k == Teleported ==> t.teleportedParam.None?
    ensures Consistent(t)
  {
    match k
    case Touch =>
      s.(touchUUID := "", raised := s.raised + [OnTouched(s.touchUUID)], touchBusy := false)
    case AvatarPick =>
      if s.avatarInformation.Some? then
        s.(raised := s.raised + [OnAvatarPicked(s.avatarInformation.value)], avatarInformation := Some(""), avatarBusy := false)
      else
        s.(avatarBusy := false)
    case Teleport =>
      s.(raised := s.raised + [OnTeleport(s.teleportParam.value)], teleportParam := None, teleportBusy := false)
    case Teleported =>
      s.(raised := s.raised + [OnTeleported(s.teleportedParam.value)], teleportedParam := None, teleportedBusy := false)
  }

  /** `Cleanup`: every marker cleared; payloads, and so what is pending, untouched. */
  function Cleanup(s: Bridge): (t: Bridge)
    ensures forall k :: !InFlight(t, k)
    ensures forall k :: SameSlot(s, t, k) && Pending(t, k) == Pending(s, k)
    ensures t.raised == s.raised
    ensures Consistent(t)
  {
    s.(touchBusy := false, avatarBusy := false, teleportBusy := false, teleportedBusy := false)
  }

  /** Cleanup is idempotent, and a payload it left behind is restarted by the next `Update`. */
  lemma CleanupKeepsPending(s: Bridge, k: EventKind)
    ensures Cleanup(Cleanup(s)) == Cleanup(s)
    ensures Pending(s, k) ==> InFlight(Update(Cleanup(s)), k)
    ensures !Pending(s, k) ==> !InFlight(Update(Cleanup(s)), k)
  {
  }

  /**
   * Last writer wins: of two reports of one kind with no delivery between
   * them, the next delivery carries only the later one, whether or not a
   * worker was already in flight when they arrived (in which case the first
   * payload is lost). The slot is then empty, so a following `Update` starts
   * nothing for that kind.
   */
  lemma LastReportWins(s: Bridge, known: set<string>, a: Report, b: Report)
    requires Consistent(s)
    requires KindOf(a) == KindOf(b)
    requires Accepted(b, known) && Carries(b)
    requires Fills(b) || InFlight(s, KindOf(b))
    ensures var k := KindOf(b);
            var ready := Update(Overwrite(Overwrite(s, known, a), known, b));
            && InFlight(ready, k)
            && var t := Deliver(ready, k);
               && t.raised == s.raised + [Announcement(b)]
               && !Pending(t, k) && !InFlight(t, k)
               && !InFlight(Update(t), k)
  {
    var k := KindOf(b);
    var stored := Overwrite(Overwrite(s, known, a), known, b);
    assert Holds(stored, b);
    var ready := Update(stored);
    assert SameSlot(stored, ready, k);
    assert Holds(ready, b);
  }

  /** One step of an execution: a report, a tick of `Update`, a worker thread running, or `Cleanup`. */
  datatype Step =
    | Reported(report: Report, known: set<string>)
    | Ticked
    | Delivered(kind: EventKind)
    | CleanedUp

  /**
   * A report step carries the ids the entity manager knows at that moment.
   * A delivery step runs only the thread of a kind in flight; for any other
   * kind there is no thread to run.
   */
  function Next(s: Bridge, st: Step): (t: Bridge)
    requires Consistent(s)
    ensures Consistent(t)
    ensures s.raised <= t.raised
  {
    match st
    case Reported(r, known) => Overwrite(s, known, r)
    case Ticked => Update(s)
    case Delivered(k) => if InFlight(s, k) then Deliver(s, k) else s
    case CleanedUp => Cleanup(s)
  }

  /** An execution of `steps`. */
  function Run(s: Bridge, steps: seq<Step>): (t: Bridge)
    requires Consistent(s)
    ensures Consistent(t)
    ensures s.raised <= t.raised
    decreases |steps|
  {
    if steps == [] then s else Run(Next(s, steps[0]), steps[1..])
  }

  /** How many times `steps` start a delivery of kind `k` (its marker going from clear to set). */
  function Starts(s: Bridge, steps: seq<Step>, k: EventKind): (n: nat)
    requires Consistent(s)
    decreases |steps|
  {
    if steps == [] then 0
    else
      var t := Next(s, steps[0]);
      (if !InFlight(s, k) && InFlight(t, k) then 1 else 0) + Starts(t, steps[1..], k)
  }

  /** Neither a delivery of kind `k` nor `Cleanup`: nothing that could clear `k`'s marker. */
  predicate KeepsBusy(st: Step, k: EventKind)
  {
    st != Delivered(k) && st != CleanedUp
  }

  /**
   * No kind is started twice concurrently: until its delivery runs or
   * `Cleanup` clears it, a kind is started at most once, and not at all if
   * it was already in flight.
   */
  lemma {:induction false} StartedAtMostOnce(s: Bridge, steps: seq<Step>, k: EventKind)
    requires Consistent(s)
    requires forall i :: 0 <= i < |steps| ==> KeepsBusy(steps[i], k)
    ensures Starts(s, steps, k) <= 1
    ensures InFlight(s, k) ==> Starts(s, steps, k) == 0
    decreases |steps|
  {
    if steps != [] {
      var t := Next(s, steps[0]);
      assert KeepsBusy(steps[0], k);
      assert InFlight(s, k) ==> InFlight(t, k);
      StartedAtMostOnce(t, steps[1..], k);
    }
  }

  /** A step that is not an accepted touch report, taken with an empty, idle touch slot. */
  lemma TouchStaysQuiet(s: Bridge, st: Step)
    requires Consistent(s) && s.touchUUID == "" && !s.touchBusy
    requires st.Reported? && st.report.TouchReport? ==> st.report.uuid !in st.known
    ensures var t := Next(s, st);
            && t.touchUUID == "" && !t.touchBusy
            && forall i :: |s.raised| <= i < |t.raised| ==> !t.raised[i].OnTouched?
  {
    var t := Next(s, st);
    assert SameSlot(s, t, Touch);
    if st.Delivered? && InFlight(s, st.kind) {
      var d := Delivery(s, st.kind);
      assert t.raised == s.raised + d;
      assert forall i :: |s.raised| <= i < |t.raised| ==> t.raised[i] in d;
    }
  }

  /**
   * A touch of an entity the entity manager does not know is never
   * delivered: starting from an empty, idle touch slot, an execution whose
   * touch reports all name entities unknown at the time of the report raises
   * no `OnTouched`, however the set of known entities changes in between.
   * A direct call of the adapter's public `CallTouched`, which raises
   * `OnTouched` unscreened, is not a step and falls outside this statement.
   */
  lemma {:induction false} UnknownTouchNeverNotified(s: Bridge, steps: seq<Step>)
    requires Consistent(s) && s.touchUUID == "" && !s.touchBusy
    requires forall i :: 0 <= i < |steps| && steps[i].Reported? && steps[i].report.TouchReport? ==> steps[i].report.uuid !in steps[i].known
    ensures var t := Run(s, steps);
            forall i :: |s.raised| <= i < |t.raised| ==> !t.raised[i].OnTouched?
    decreases |steps|
  {
    if steps != [] {
      TouchStaysQuiet(s, steps[0]);
      var t := Next(s, steps[0]);
      UnknownTouchNeverNotified(t, steps[1..]);
      var u := Run(s, steps);
      assert u == Run(t, steps[1..]);
      assert u.raised[..|t.raised|] == t.raised;
      forall i | |s.raised| <= i < |u.raised|
        ensures !u.raised[i].OnTouched?
      {
        if i < |t.raised| {
          assert u.raised[i] == t.raised[i];
        }
      }
    }
  }

  /**
   * The teleported scenario: one report, one tick, its worker runs; the
   * listener sees exactly that teleport, the slot is empty, and another tick
   * starts nothing.
   */
  lemma TeleportedDeliveredOnce()
    ensures var p := TeleportedParam("u1", "Alice", 10, 20, 30);
            var t := Run(Initial, [Reported(TeleportedReport(p), {}), Ticked, Delivered(Teleported)]);
            && t.raised == [OnTeleported(p)]
            && t.teleportedParam.None?
            && Update(t) == t
  {
    var p := TeleportedParam("u1", "Alice", 10, 20, 30);
    var steps := [Reported(TeleportedReport(p), {}), Ticked, Delivered(Teleported)];
    var s1 := Overwrite(Initial, {}, TeleportedReport(p));
    var s2 := Update(s1);
    var s3 := Deliver(s2, Teleported);
    assert s2.teleportedParam == Some(p) && s2.raised == [];
    assert Run(Initial, steps) == Run(s1, steps[1..]);
    assert Run(s1, steps[1..]) == Run(s2, steps[2..]);
    assert Run(s2, steps[2..]) == Run(s3, []);
  }
}
