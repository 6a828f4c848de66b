/** The one-slot register of the active panel. Registering a panel also hooks its disposal, and
    the hook clears the slot only while that panel still occupies it. */
module PanelState {
  import opened Wrappers
  import opened Webview

  /** What happens to the register: `setActivePanel(p)` or the disposal of a panel. */
  datatype Event<P> = Set(next: Option<P>) | Dispose(disposed: P)

  /** The slot, and the panels whose disposal has been hooked. */
  datatype Register<P> = Register(slot: Option<P>, hooked: set<P>)

  function Step<P(==)>(r: Register<P>, e: Event<P>): Register<P> {
    match e
    case Set(p) => Register(p, if p.Some? then r.hooked + {p.value} else r.hooked)
    case Dispose(p) => if p in r.hooked && r.slot == Some(p) then Register(None, r.hooked) else r
  }

  /** The register after `events`, starting from the empty slot. */
  function Replay<P(==)>(events: seq<Event<P>>): Register<P> {
    if events == [] then Register(None, {})
    else Step(Replay(events[..|events| - 1]), events[|events| - 1])
  }

  /** `p` was set at position `i` of `events`, and since then nothing was set and `p` was not
      disposed. */
  predicate ActiveSince<P(==)>(events: seq<Event<P>>, i: nat, p: P) {
    && i < |events|
    && events[i] == Set(Some(p))
    && forall j :: i < j < |events| ==> !events[j].Set? && events[j] != Dispose(p)
  }

  /** The active panel is `p` exactly when `p` was the last panel set and has not been disposed
      since; a disposal of any other panel, in particular of one it replaced, leaves it in place.
      The active panel's disposal is always hooked. */
  lemma {:induction false} ReplaySlot<P>(events: seq<Event<P>>, p: P)
    ensures Replay(events).slot == Some(p) <==> exists i :: ActiveSince(events, i, p)
    ensures Replay(events).slot.Some? ==> Replay(events).slot.value in Replay(events).hooked
    decreases |events|
  {
    if events != [] {
      var n := |events|;
      var pre := events[..n - 1];
      var e := events[n - 1];
      var r := Replay(pre);
      ReplaySlot(pre, p);
      if r.slot.Some? {
        ReplaySlot(pre, r.slot.value);
      }
      forall i: nat | i < n - 1
        ensures ActiveSince(events, i, p) <==> ActiveSince(pre, i, p) && !e.Set? && e != Dispose(p)
      {
        assert events[i] == pre[i];
        if ActiveSince(pre, i, p) && !e.Set? && e != Dispose(p) {
          forall j | i < j < n ensures !events[j].Set? && events[j] != Dispose(p) {
            if j < n - 1 { assert events[j] == pre[j]; }
          }
        }
        if ActiveSince(events, i, p) {
          forall j | i < j < n - 1 ensures !pre[j].Set? && pre[j] != Dispose(p) {
            assert events[j] == pre[j];
          }
        }
      }
      if e == Set(Some(p)) {
        assert ActiveSince(events, n - 1, p);
      }
    }
  }

  /** A panel that occupies the slot stays there whatever else is disposed. */
  lemma DisposeOtherKeeps<P>(events: seq<Event<P>>, p: P, q: P)
    requires Replay(events).slot == Some(p) && q != p
    ensures Replay(events + [Dispose(q)]).slot == Some(p)
  {
    assert (events + [Dispose(q)])[..|events|] == events;
  }

  /** Setting `null` empties the slot and hooks nothing. */
  lemma SetNullHooksNothing<P>(events: seq<Event<P>>)
    ensures Replay(events + [Set(None)]) == Register(None, Replay(events).hooked)
  {
    assert (events + [Set(None)])[..|events|] == events;
  }

  function Slot(p: Panel?): Option<Panel> {
    if p == null then None else Some(p)
  }

  /** `activePanelState`, with the history of what happened to it. */
  class ActivePanelState {
    var value: Panel?
    var hooked: set<Panel>
    ghost var events: seq<Event<Panel>>

    ghost predicate Valid()
      reads this
    {
      Replay(events) == Register(Slot(value), hooked)
    }

    constructor ()
      ensures value == null && hooked == {} && events == [] && Valid()
    {
      value := null;
      hooked := {};
      events := [];
    }

    /** `getActivePanel`: reads the slot and changes nothing. */
    method Get() returns (p: Panel?)
      ensures p == value
    {
      p := value;
    }

    /** `setActivePanel(p)`: the slot holds `p`; a non-null `p` has its disposal hooked. */
    method Set(p: Panel?)
      requires Valid()
      modifies this
      ensures Valid()
      ensures value == p && events == old(events) + [Event.Set(Slot(p))]
      ensures hooked == if p != null then old(hooked) + {p} else old(hooked)
    {
      events := events + [Event.Set(Slot(p))];
      value := p;
      if p != null {
        hooked := hooked + {p};
      }
      assert events[..|events| - 1] == old(events);
    }

    /** The dispose hook of `p`, when `p` is disposed: clears the slot only while `p` holds it. */
    method Dispose(p: Panel)
      requires Valid()
      modifies this`value, this`events
      ensures Valid()
      ensures events == old(events) + [Event.Dispose(p)]
      ensures value == if p in hooked && old(value) == p then null else old(value)
    {
      events := events + [Event.Dispose(p)];
      if p in hooked && value == p {
        value := null;
      }
      assert events[..|events| - 1] == old(events);
    }
  }
}
