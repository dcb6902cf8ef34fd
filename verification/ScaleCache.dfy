/** The cache of active scales, and the zones kept in step with it by a listener. */
module ScaleCache {
  import opened Wrappers
  import opened Arithmetic
  import opened LoopPath
  import opened Zones

  const DEFAULT_ROOM_KEY := "__default__"

  /**
   * What a listener other than the zone listener may attempt while it is notified: setting a scale, letting
   * the error through or catching it, reading one, throwing, subscribing a listener, unsubscribing one.
   */
  datatype Attempt =
    | SetScale(scale: LayoutScale, roomKey: string)
    | TrySetScale(scale: LayoutScale, roomKey: string)
    | ReadScale(roomKey: string)
    | Throw
    | Add(listener: Listener)
    | Drop(id: nat)

  datatype Listener = ZoneRebuild | Other(id: nat, body: seq<Attempt>)

  predicate Distinct(ls: seq<Listener>) { forall i, j :: 0 <= i < j < |ls| ==> ls[i] != ls[j] }

  function Kept(ls: seq<Listener>, id: nat): seq<Listener> {
    if ls == [] then [] else Kept(ls[..|ls| - 1], id) + OnlyIfNot(ls[|ls| - 1], id)
  }

  function OnlyIfNot(l: Listener, id: nat): seq<Listener> { if l.Other? && l.id == id then [] else [l] }

  /** Exactly the listener is dropped. */
  lemma {:induction false} KeptIs(ls: seq<Listener>, id: nat)
    ensures |Kept(ls, id)| <= |ls|
    ensures forall l :: l in Kept(ls, id) <==> l in ls && !(l.Other? && l.id == id)
    ensures Distinct(ls) ==> Distinct(Kept(ls, id))
  {
    if ls != [] {
      var front, last := ls[..|ls| - 1], ls[|ls| - 1];
      assert ls == front + [last];
      KeptIs(front, id);
      if Distinct(ls) {
        assert last !in front;
        assert Distinct(front);
      }
    }
  }

  /** What notifying a listener may cost, with all listeners it subscribes. */
  function Weight(l: Listener): nat {
    1 + if l.ZoneRebuild? then 0 else Weights(l.body)
  }

  function Weights(body: seq<Attempt>): nat {
    if body == [] then 0
    else Cost(body[0]) + Weights(body[1..])
  }

  function Cost(a: Attempt): nat { if a.Add? then Weight(a.listener) else 0 }

  function Pending(ls: seq<Listener>): nat {
    if ls == [] then 0 else Pending(ls[..|ls| - 1]) + Weight(ls[|ls| - 1])
  }

  lemma {:induction false} PendingSplits(a: seq<Listener>, b: seq<Listener>)
    ensures Pending(a + b) == Pending(a) + Pending(b)
  {
    if b == [] {
      assert a + b == a;
    } else {
      assert (a + b)[..|a + b| - 1] == a + b[..|b| - 1];
      PendingSplits(a, b[..|b| - 1]);
    }
  }

  lemma NextPending(ls: seq<Listener>, i: nat)
    requires i < |ls|
    ensures Pending(ls[i..]) == Weight(ls[i]) + Pending(ls[i + 1..])
  {
    PendingSplits([ls[i]], ls[i + 1..]);
    assert [ls[i]] + ls[i + 1..] == ls[i..];
    assert [ls[i]][..0] == [];
  }

  lemma OnePending(ls: seq<Listener>, i: nat, l: Listener)
    requires i <= |ls|
    ensures Pending((ls + [l])[i..]) == Pending(ls[i..]) + Weight(l)
  {
    PendingSplits(ls[i..], [l]);
    assert (ls + [l])[i..] == ls[i..] + [l];
    assert [l][..0] == [];
  }

  lemma {:induction false} KeptSplits(a: seq<Listener>, b: seq<Listener>, id: nat)
    ensures Kept(a + b, id) == Kept(a, id) + Kept(b, id)
  {
    if b == [] {
      assert a + b == a;
    } else {
      assert (a + b)[..|a + b| - 1] == a + b[..|b| - 1];
      KeptSplits(a, b[..|b| - 1], id);
    }
  }

  lemma {:induction false} KeptIsLighter(ls: seq<Listener>, id: nat)
    ensures Pending(Kept(ls, id)) <= Pending(ls)
  {
    if ls != [] {
      var front, last := Kept(ls[..|ls| - 1], id), ls[|ls| - 1];
      KeptIsLighter(ls[..|ls| - 1], id);
      PendingSplits(front, OnlyIfNot(last, id));
      assert Pending([last]) == Weight(last) by { assert [last][..0] == []; }
    }
  }

  // ----- what the other listeners do to the subscriptions

  /** In a cascade the default key is installed; setting always throws, reading exactly for a key not installed. */
  predicate Throws(a: Attempt, scalesByRoom: map<string, LayoutScale>) {
    a.SetScale? || a.Throw? || (a.ReadScale? && a.roomKey !in scalesByRoom)
  }

  /** The listeners after one attempt: only subscribing and unsubscribing change them. */
  function Attempted(ls: seq<Listener>, a: Attempt): seq<Listener> {
    match a
    case Add(listener) => if listener in ls then ls else ls + [listener]
    case Drop(id) => Kept(ls, id)
    case _ => ls
  }

  /** The listeners after the attempts of a body, up to the first one that throws. */
  function Performed(ls: seq<Listener>, body: seq<Attempt>, scalesByRoom: map<string, LayoutScale>): seq<Listener>
    decreases body
  {
    if body == [] || Throws(body[0], scalesByRoom) then ls
    else Performed(Attempted(ls, body[0]), body[1..], scalesByRoom)
  }

  lemma ThrowingChangesNobody(ls: seq<Listener>, a: Attempt, scalesByRoom: map<string, LayoutScale>)
    ensures Throws(a, scalesByRoom) ==> Attempted(ls, a) == ls
  {
  }

  predicate Quiet(l: Listener) { l.Other? ==> forall a :: a in l.body ==> !a.Add? && !a.Drop? }

  lemma {:induction false} QuietBodyChangesNobody(ls: seq<Listener>, body: seq<Attempt>,
                                                  scalesByRoom: map<string, LayoutScale>)
    requires forall a :: a in body ==> !a.Add? && !a.Drop?
    ensures Performed(ls, body, scalesByRoom) == ls
    decreases body
  {
    if body != [] { QuietBodyChangesNobody(ls, body[1..], scalesByRoom); }
  }

  lemma QuietListenerChangesNobody(ls: seq<Listener>, l: Listener, scalesByRoom: map<string, LayoutScale>)
    ensures Quiet(l) && l.Other? ==> Performed(ls, l.body, scalesByRoom) == ls
  {
    if Quiet(l) && l.Other? { QuietBodyChangesNobody(ls, l.body, scalesByRoom); }
  }

  datatype Call =
    | Subscribe(listener: Listener)
    | Unsubscribe(id: nat)
    | Set(scale: LayoutScale, roomKey: string)
    | Get(roomKey: string)

  class World {
    const trig: Trig
    const isDev: bool
    var scalesByRoom: map<string, LayoutScale>
    var listeners: seq<Listener>
    var emitting: bool
    /** How far the cascade under way has got in the listeners. */
    var cursor: nat
    var currentZones: seq<Zone>
    /** Who has been notified, in order. */
    ghost var notified: seq<Listener>

    /** The scale the default key stands for: the installed one, or the baseline. */
    function DefaultScale(): LayoutScale
      reads this
    {
      if DEFAULT_ROOM_KEY in scalesByRoom then scalesByRoom[DEFAULT_ROOM_KEY] else BASELINE
    }

    predicate InStep()
      reads this
    {
      currentZones == BuildZones(trig, DefaultScale())
    }

    /** Between calls: nothing is being emitted, the zone listener is subscribed and the zones are in step. */
    predicate Valid()
      reads this
    {
      !emitting && Subscribed() && InStep()
    }

    /** The zone listener is subscribed, and nobody is twice. */
    predicate Subscribed()
      reads this
    {
      ZoneRebuild in listeners && Distinct(listeners) && cursor <= |listeners|
    }

    /** Everybody subscribed now has been told since; if nobody subscribes or unsubscribes, each once, in order. */
    ghost predicate EverybodyWasTold(before: seq<Listener>, subscribed: seq<Listener>)
      reads this
    {
      && before <= notified
      && (forall l :: l in listeners ==> l in notified[|before|..])
      && ((forall l :: l in subscribed ==> Quiet(l)) ==> notified == before + subscribed && listeners == subscribed)
    }

    /** The same for the listeners the cascade under way has passed. */
    ghost predicate ToldSoFar(before: seq<Listener>, subscribed: seq<Listener>)
      requires cursor <= |listeners|
      reads this
    {
      && before <= notified
      && (forall l :: l in listeners[..cursor] ==> l in notified[|before|..])
      && ((forall l :: l in subscribed ==> Quiet(l)) ==>
            notified == before + subscribed[..MinInt(cursor, |subscribed|)] && listeners == subscribed)
    }

    /** What the cascade under way may still cost. */
    ghost function Left(): nat
      requires cursor <= |listeners|
      reads this
    {
      Pending(listeners[cursor..])
    }

    /** Loading the modules: an empty cache, the zone listener, and zones at the baseline. */
    constructor (trig: Trig, isDev: bool)
      ensures Valid() && this.trig == trig && this.isDev == isDev && scalesByRoom == map[]
    {
      this.trig, this.isDev := trig, isDev;
      scalesByRoom, listeners, emitting, cursor := map[], [ZoneRebuild], false, 0;
      currentZones := BuildZones(trig, BASELINE);
      notified := [];
    }

    /** Adding a listener twice has no effect; a new one is last, also for a cascade under way. */
    method OnScaleChange(listener: Listener)
      requires cursor <= |listeners|
      modifies this`listeners
      ensures listeners == if listener in old(listeners) then old(listeners) else old(listeners) + [listener]
      ensures Left() <= old(Left()) + Weight(listener)
      ensures listeners[..cursor] == old(listeners[..cursor])
      ensures old(Distinct(listeners)) ==> Distinct(listeners)
    {
      hide Pending, Weight;
      if listener !in listeners {
        OnePending(listeners, cursor, listener);
        listeners := listeners + [listener];
      }
    }

    /** The zone listener's unsubscriber is dropped at load time, so only others can be taken off. */
    method StopListening(id: nat)
      requires cursor <= |listeners|
      modifies this`listeners, this`cursor
      ensures listeners == Kept(old(listeners), id)
      ensures forall l :: l in listeners <==> l in old(listeners) && !(l.Other? && l.id == id)
      ensures old(Distinct(listeners)) ==> Distinct(listeners)
      ensures cursor == |Kept(old(listeners[..cursor]), id)| <= |listeners|
      ensures listeners[..cursor] == Kept(old(listeners[..cursor]), id)
      ensures Left() <= old(Left())
    {
      var before, after := listeners[..cursor], listeners[cursor..];
      assert before + after == listeners;
      KeptIs(listeners, id);
      KeptSplits(before, after, id);
      KeptIsLighter(after, id);
      listeners := Kept(listeners, id);
      cursor := |Kept(before, id)|;
      assert listeners[..cursor] == Kept(before, id) && listeners[cursor..] == Kept(after, id);
    }

    /** Returns false when it throws. A call made from inside a listener changes nothing and throws. */
    method SetActiveScale(scale: LayoutScale, roomKey: string) returns (done: bool)
      requires emitting ==> DEFAULT_ROOM_KEY in scalesByRoom
      requires Subscribed()
      modifies this
      ensures done == !old(emitting) && emitting == old(emitting) && Subscribed()
      ensures scalesByRoom == if done then old(scalesByRoom)[roomKey := scale] else old(scalesByRoom)
      ensures done && old(InStep()) ==> InStep()
      ensures done && roomKey == DEFAULT_ROOM_KEY ==> currentZones == BuildZones(trig, scale)
      ensures !done || roomKey != DEFAULT_ROOM_KEY ==>
        && currentZones == old(currentZones) && listeners == old(listeners) && cursor == old(cursor)
        && notified == old(notified)
      ensures done && roomKey == DEFAULT_ROOM_KEY ==> EverybodyWasTold(old(notified), old(listeners))
      decreases if emitting then 0 else 1, 0
    {
      if emitting { return false; }
      scalesByRoom := scalesByRoom[roomKey := scale];
      if roomKey != DEFAULT_ROOM_KEY { return true; }
      emitting := true;
      EmitScaleChange(scale);
      emitting := false;
      return true;
    }

    /** Listeners are visited in order, those subscribed on the way included, those unsubscribed in time left out. */
    method EmitScaleChange(scale: LayoutScale)
      requires emitting && DEFAULT_ROOM_KEY in scalesByRoom && Subscribed()
      modifies this
      ensures emitting && Subscribed() && scalesByRoom == old(scalesByRoom)
      ensures currentZones == BuildZones(trig, scale)
      ensures EverybodyWasTold(old(notified), old(listeners))
      decreases 0, 4
    {
      hide Pending, Distinct, Weight, BuildZones;
      ghost var before, subscribed := notified, listeners;
      cursor := 0;
      while cursor < |listeners|
        invariant emitting && Subscribed() && scalesByRoom == old(scalesByRoom)
        invariant ZoneRebuild in listeners[..cursor] ==> currentZones == BuildZones(trig, scale)
        invariant ToldSoFar(before, subscribed)
        decreases Left()
      {
        NotifyNext(scale, before, subscribed);
      }
      assert listeners[..cursor] == listeners;
    }

    /** The body of the cascade's loop. A listener that throws is logged, and the cascade goes on. */
    method NotifyNext(scale: LayoutScale, ghost before: seq<Listener>, ghost subscribed: seq<Listener>)
      requires emitting && DEFAULT_ROOM_KEY in scalesByRoom && Subscribed() && cursor < |listeners|
      requires ZoneRebuild in listeners[..cursor] ==> currentZones == BuildZones(trig, scale)
      requires ToldSoFar(before, subscribed)
      modifies this
      ensures emitting && Subscribed() && scalesByRoom == old(scalesByRoom)
      ensures ZoneRebuild in listeners[..cursor] ==> currentZones == BuildZones(trig, scale)
      ensures ToldSoFar(before, subscribed)
      ensures Left() < old(Left())
      decreases 0, 3
    {
      hide Pending, Distinct, Weight, BuildZones, Quiet, Performed, Throws;
      var listener := listeners[cursor];
      NextPending(listeners, cursor);
      assert listeners[..cursor + 1] == listeners[..cursor] + [listener];
      cursor := cursor + 1;
      ghost var told := notified + [listener];
      assert forall l :: l in listeners[..cursor] ==> l in told[|before|..] by {
        assert told[|before|..] == notified[|before|..] + [listener];
      }
      QuietListenerChangesNobody(listeners, listener, scalesByRoom);
      var _ := Notify(listener, scale);
    }

    /** Runs one listener; returns false when it throws, which cuts the rest of its body off. */
    method Notify(listener: Listener, scale: LayoutScale) returns (done: bool)
      requires emitting && DEFAULT_ROOM_KEY in scalesByRoom && Subscribed() && listener in listeners
      modifies this
      ensures emitting && Subscribed() && scalesByRoom == old(scalesByRoom)
      ensures notified == old(notified) + [listener]
      ensures currentZones == if listener.ZoneRebuild? then BuildZones(trig, scale) else old(currentZones)
      ensures ZoneRebuild in listeners[..cursor] <==> old(ZoneRebuild in listeners[..cursor])
      ensures forall l :: l in listeners[..cursor] ==> l in old(listeners[..cursor])
      ensures Quiet(listener) ==> cursor == old(cursor)
      ensures Left() < old(Left()) + Weight(listener)
      ensures listeners == if listener.ZoneRebuild? then old(listeners)
                           else Performed(old(listeners), listener.body, scalesByRoom)
      ensures done <==> listener.ZoneRebuild? || forall a :: a in listener.body ==> !Throws(a, scalesByRoom)
      decreases 0, 2
    {
      hide Pending, Distinct, BuildZones, Throws, Attempted;
      notified := notified + [listener];
      if listener.ZoneRebuild? {
        currentZones := BuildZones(trig, scale);
        return true;
      }
      for i := 0 to |listener.body|
        invariant emitting && Subscribed() && scalesByRoom == old(scalesByRoom)
        invariant currentZones == old(currentZones) && notified == old(notified) + [listener]
        invariant ZoneRebuild in listeners[..cursor] <==> old(ZoneRebuild in listeners[..cursor])
        invariant forall l :: l in listeners[..cursor] ==> l in old(listeners[..cursor])
        invariant Performed(old(listeners), listener.body, scalesByRoom) ==
                  Performed(listeners, listener.body[i..], scalesByRoom)
        invariant Quiet(listener) ==> cursor == old(cursor)
        invariant Left() + Weights(listener.body[i..]) <= old(Left()) + Weights(listener.body)
        invariant forall j :: 0 <= j < i ==> !Throws(listener.body[j], scalesByRoom)
      {
        assert listener.body[i..][1..] == listener.body[i + 1..];
        assert listener.body[i] in listener.body;
        ThrowingChangesNobody(listeners, listener.body[i], scalesByRoom);
        var performed := Perform(listener.body[i]);
        if !performed { return false; }
      }
      return true;
    }

    /** One attempt of a listener that is being notified; returns false when it throws. */
    method Perform(a: Attempt) returns (done: bool)
      requires emitting && DEFAULT_ROOM_KEY in scalesByRoom && Subscribed()
      modifies this
      ensures emitting && Subscribed() && scalesByRoom == old(scalesByRoom) && currentZones == old(currentZones)
      ensures notified == old(notified)
      ensures ZoneRebuild in listeners[..cursor] <==> old(ZoneRebuild in listeners[..cursor])
      ensures forall l :: l in listeners[..cursor] ==> l in old(listeners[..cursor])
      ensures !a.Drop? ==> cursor == old(cursor)
      ensures Left() <= old(Left()) + Cost(a)
      ensures done == !Throws(a, scalesByRoom)
      ensures listeners == Attempted(old(listeners), a)
      decreases 0, 1
    {
      hide Kept, Pending, Distinct, Weight, BuildZones;
      match a
      case SetScale(scale, roomKey) =>
        done := SetActiveScale(scale, roomKey);
      case TrySetScale(scale, roomKey) =>
        var _ := SetActiveScale(scale, roomKey);
        done := true;
      case ReadScale(roomKey) =>
        var read := GetActiveScale(roomKey);
        done := read.Some?;
      case Throw =>
        done := false;
      case Add(listener) =>
        OnScaleChange(listener);
        done := true;
      case Drop(id) =>
        KeptIs(listeners[..cursor], id);
        StopListening(id);
        done := true;
    }

    /** None when the call throws. Only the default key falls back to the baseline, and only in production. */
    method GetActiveScale(roomKey: string) returns (r: Option<LayoutScale>)
      modifies this`scalesByRoom
      ensures roomKey in old(scalesByRoom) ==> r == Some(old(scalesByRoom)[roomKey]) && scalesByRoom == old(scalesByRoom)
      ensures roomKey !in old(scalesByRoom) && (isDev || roomKey != DEFAULT_ROOM_KEY) ==>
        r.None? && scalesByRoom == old(scalesByRoom)
      ensures roomKey !in old(scalesByRoom) && !isDev && roomKey == DEFAULT_ROOM_KEY ==>
        r == Some(BASELINE) && scalesByRoom == old(scalesByRoom)[roomKey := BASELINE]
      ensures DefaultScale() == old(DefaultScale())
      decreases 0, 0, 0
    {
      if roomKey in scalesByRoom { return Some(scalesByRoom[roomKey]); }
      if roomKey == DEFAULT_ROOM_KEY {
        if isDev { return None; }
        var fallback := ComputeLayoutScale(BASELINE_REPO_COUNT);
        scalesByRoom := scalesByRoom[DEFAULT_ROOM_KEY := fallback];
        return Some(fallback);
      }
      return None;
    }

    method GetZones() returns (zones: seq<Zone>)
      requires Valid()
      ensures zones == BuildZones(trig, DefaultScale())
    {
      zones := currentZones;
    }

    method GetZone(name: string) returns (r: Option<Zone>)
      requires Valid()
      ensures r == FindZone(BuildZones(trig, DefaultScale()), name)
      ensures r.Some? <==> Declared(name)
    {
      DeclaredZonesAreFound(trig, DefaultScale(), name);
      r := FindZone(currentZones, name);
    }

    /** The test-only reset leaves the zones as they are: in step exactly if the dropped scale was the baseline. */
    method ResetActiveScale(roomKey: Option<string>)
      requires Valid()
      modifies this`scalesByRoom
      ensures scalesByRoom == if roomKey.None? then map[] else old(scalesByRoom) - {roomKey.value}
      ensures InStep() <==>
        (roomKey.Some? && roomKey.value != DEFAULT_ROOM_KEY) || old(DefaultScale()) == BASELINE
    {
      ZonesTellTheScale(trig, DefaultScale(), BASELINE);
      if roomKey.None? {
        scalesByRoom := map[];
      } else {
        scalesByRoom := scalesByRoom - {roomKey.value};
      }
    }

    /** Resetting everything after a scale off the baseline was set leaves the zones behind. */
    method ResetLeavesZonesStale()
      requires Valid()
      modifies this
      ensures !InStep() && DefaultScale() == BASELINE
    {
      var _ := SetActiveScale(ComputeLayoutScale(BASELINE_REPO_COUNT + 1), DEFAULT_ROOM_KEY);
      ResetActiveScale(None);
      ZonesTellTheScale(trig, ComputeLayoutScale(BASELINE_REPO_COUNT + 1), BASELINE);
    }

    /**
     * On every run of subscribe, unsubscribe, set and get calls, whatever the other listeners attempt, the
     * zones are those of the installed default scale and the emitting flag is clear after every call.
     */
    method RunCalls(calls: seq<Call>)
      requires Valid()
      modifies this
      ensures Valid()
      ensures DefaultScale() == LastDefault(old(DefaultScale()), calls)
    {
      hide Distinct, BuildZones, Kept;
      for i := 0 to |calls|
        invariant Valid() && DefaultScale() == LastDefault(old(DefaultScale()), calls[..i])
      {
        assert calls[..i + 1][..i] == calls[..i];
        match calls[i]
        case Subscribe(listener) => OnScaleChange(listener);
        case Unsubscribe(id) => StopListening(id);
        case Set(scale, roomKey) => var _ := SetActiveScale(scale, roomKey);
        case Get(roomKey) => var _ := GetActiveScale(roomKey);
      }
      assert calls[..|calls|] == calls;
    }
  }

  /** The last scale set for the default key; other keys do not matter. */
  function LastDefault(start: LayoutScale, calls: seq<Call>): LayoutScale {
    if calls == [] then start
    else
      var last := calls[|calls| - 1];
      if last.Set? && last.roomKey == DEFAULT_ROOM_KEY then last.scale else LastDefault(start, calls[..|calls| - 1])
  }
}
