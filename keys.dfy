/** Keyboard handlers: `QAxis`, a two-key axis whose state is -1, 0 or 1;
    `Button`, a single key's up/down state; and the dispatch of one key event
    to every handler that lists the key. */
module KeyHandlers {

  /** `keys.findIndex(k => k === key)`: the first position of `key`, or -1. */
  function FindIndex(keys: seq<string>, key: string): (i: int)
    ensures -1 <= i < |keys|
    ensures i == -1 <==> key !in keys
    ensures 0 <= i ==> keys[i] == key && key !in keys[..i]
  {
    if keys == [] then -1
    else if keys[0] == key then 0
    else
      var j := FindIndex(keys[1..], key);
      if j == -1 then -1
      else
        assert keys[..j + 1] == [keys[0]] + keys[1..][..j];
        j + 1
  }

  /** `[-1, 1][idx]`: what holding the first or the second key contributes. */
  function Pressed(idx: int): int
    requires idx == 0 || idx == 1
  {
    if idx == 0 then -1 else 1
  }

  /** The two per-key contributions after a key at position `idx` went down
      or up. A key the axis does not list (`idx == -1`) changes neither:
      the source's write to `states[-1]` only adds an unread property. */
  function AxisStep(states: seq<int>, idx: int, down: bool): (r: seq<int>)
    requires |states| == 2
    ensures |r| == 2
    ensures idx == 0 ==> r[0] == (if down then -1 else 0) && r[1] == states[1]
    ensures idx == 1 ==> r[1] == (if down then 1 else 0) && r[0] == states[0]
    ensures idx != 0 && idx != 1 ==> r == states
  {
    if idx == 0 || idx == 1 then states[idx := if down then Pressed(idx) else 0] else states
  }

  /** A key event `{key, down}`. */
  datatype KeyEvent = KeyEvent(key: string, down: bool)

  /** The contributions of an axis listening to `keys` after `events`, from
      the initial `[0, 0]`. */
  function AxisReplay(keys: seq<string>, events: seq<KeyEvent>): (r: seq<int>)
    ensures |r| == 2
  {
    if events == [] then [0, 0]
    else
      var last := events[|events| - 1];
      AxisStep(AxisReplay(keys, events[..|events| - 1]), FindIndex(keys, last.key), last.down)
  }

  /** 1 when the last event for `key` pressed it, 0 when it released it or
      there was none. */
  function Held(events: seq<KeyEvent>, key: string): int
  {
    if events == [] then 0
    else if events[|events| - 1].key == key then (if events[|events| - 1].down then 1 else 0)
    else Held(events[..|events| - 1], key)
  }

  /** An axis over two distinct keys reports exactly "second key held minus
      first key held": each contribution follows its own key's last event
      alone, whatever happened to the other key in between. */
  lemma {:induction false} AxisFollowsHeldKeys(keys: seq<string>, events: seq<KeyEvent>)
    requires |keys| == 2 && keys[0] != keys[1]
    ensures AxisReplay(keys, events)[0] == -Held(events, keys[0])
    ensures AxisReplay(keys, events)[1] == Held(events, keys[1])
    ensures AxisReplay(keys, events)[0] + AxisReplay(keys, events)[1] == Held(events, keys[1]) - Held(events, keys[0])
  {
    if events != [] {
      AxisFollowsHeldKeys(keys, events[..|events| - 1]);
    }
  }

  /** `QAxis`: two keys, the per-key contributions `states`, and their sum
      `state`, which the handler receives after every change. */
  class QAxis {
    const keys: seq<string>
    const states: array<int>
    var state: int

    /** The axis invariant: the first key contributes -1 or 0, the second 0
        or 1, and `state` is their sum. */
    ghost predicate Valid()
      reads this, states
    {
      && |keys| == 2
      && states.Length == 2
      && (states[0] == -1 || states[0] == 0)
      && (states[1] == 0 || states[1] == 1)
      && state == states[0] + states[1]
    }

    /** `new QAxis(keys, handler)`: listens to the first two keys, at rest. */
    constructor (keys: seq<string>)
      requires |keys| >= 2
      ensures Valid() && fresh(states)
      ensures this.keys == keys[..2]
      ensures states[..] == [0, 0] && state == 0
    {
      this.keys := keys[..2];
      var a := new int[2];
      a[0], a[1] := 0, 0;
      states := a;
      state := 0;
    }

    /** `QAxis.change`: sets the contribution of the key that changed, keeps
        the other, and recomputes the sum, which it hands to the handler
        (returned here as `notified`). */
    method Change(key: string, down: bool) returns (notified: int)
      requires Valid()
      modifies this, states
      ensures Valid()
      ensures states[..] == AxisStep(old(states[..]), FindIndex(keys, key), down)
      ensures state == states[0] + states[1] && -1 <= state <= 1
      ensures notified == state
    {
      var idx := FindIndex(keys, key);
      if idx == 0 || idx == 1 {
        states[idx] := if down then Pressed(idx) else 0;
      }
      state := states[0] + states[1];
      notified := state;
    }
  }

  /** `Button`: one key and whether it is down. */
  class Button {
    const keys: seq<string>
    var state: bool

    /** `new Button(keys, handler)`: listens to the first key, released. */
    constructor (keys: seq<string>)
      requires |keys| >= 1
      ensures this.keys == keys[..1] && !state
    {
      this.keys := keys[..1];
      state := false;
    }

    /** `Button.change`: records whether the key is down and hands that to
        the handler (returned here as `notified`); the key itself is not
        looked at. */
    method Change(key: string, down: bool) returns (notified: bool)
      modifies this
      ensures state == down && notified == down
    {
      state := down;
      notified := down;
    }
  }

  /** A registered handler, one of the two kinds. */
  datatype KeyHandler = Axis(axis: QAxis) | Single(button: Button)

  function KeysOf(h: KeyHandler): seq<string>
  {
    match h
    case Axis(a) => a.keys
    case Single(b) => b.keys
  }

  ghost function Footprint(h: KeyHandler): set<object>
  {
    match h
    case Axis(a) => {a, a.states}
    case Single(b) => {b}
  }

  ghost function Footprints(handlers: seq<KeyHandler>): set<object>
  {
    (set i | 0 <= i < |handlers| && handlers[i].Axis? :: handlers[i].axis as object)
    + (set i | 0 <= i < |handlers| && handlers[i].Axis? :: handlers[i].axis.states as object)
    + (set i | 0 <= i < |handlers| && handlers[i].Single? :: handlers[i].button as object)
  }

  lemma FootprintWithin(handlers: seq<KeyHandler>, n: int)
    requires 0 <= n < |handlers|
    ensures Footprint(handlers[n]) <= Footprints(handlers)
  {
  }

  /** The registered handlers are separate objects. */
  ghost predicate Separate(handlers: seq<KeyHandler>)
  {
    forall i, j :: 0 <= i < j < |handlers| ==> Footprint(handlers[i]) !! Footprint(handlers[j])
  }

  /** A handler's own invariant. */
  ghost predicate Consistent(h: KeyHandler)
    reads Footprint(h)
  {
    h.Axis? ==> h.axis.Valid()
  }

  /** The part of a handler's state that key events change. */
  datatype Snapshot = Snapshot(states: seq<int>, state: int, down: bool)

  ghost function Snap(h: KeyHandler): Snapshot
    reads Footprint(h)
  {
    match h
    case Axis(a) => Snapshot(a.states[..], a.state, false)
    case Single(b) => Snapshot([], 0, b.state)
  }

  /** What one key event leaves in a handler that was in state `before`: an
      axis that lists the key finds it at position 0 or 1 (never -1) and
      updates that contribution; a button that lists it records `down`; a
      handler that does not list the key is as it was. */
  ghost predicate Delivered(h: KeyHandler, before: Snapshot, key: string, down: bool)
    reads Footprint(h)
  {
    && Consistent(h)
    && if key !in KeysOf(h) then Snap(h) == before
       else match h
         case Axis(a) =>
           && (FindIndex(a.keys, key) == 0 || FindIndex(a.keys, key) == 1)
           && |before.states| == 2
           && a.states[..] == AxisStep(before.states, FindIndex(a.keys, key), down)
         case Single(b) => b.state == down
  }

  /** One handler's share of `Input.KEYCHANGE`: the event goes to it only
      when it lists the key. */
  method Deliver(h: KeyHandler, key: string, down: bool)
    requires Consistent(h)
    modifies Footprint(h)
    ensures Delivered(h, old(Snap(h)), key, down)
  {
    if key in KeysOf(h) {
      match h
      case Axis(a) =>
        var _ := a.Change(key, down);
      case Single(b) =>
        var _ := b.Change(key, down);
    }
  }

  /** `Input.KEYCHANGE`: passes the event to every handler that lists the
      key, in registration order, and leaves the others alone. */
  method KeyChange(handlers: seq<KeyHandler>, key: string, down: bool)
    requires Separate(handlers)
    requires forall i :: 0 <= i < |handlers| ==> Consistent(handlers[i])
    modifies Footprints(handlers)
    ensures forall i :: 0 <= i < |handlers| ==> Delivered(handlers[i], old(Snap(handlers[i])), key, down)
  {
    ghost var before := seq(|handlers|, i requires 0 <= i < |handlers| reads if 0 <= i < |handlers| then Footprint(handlers[i]) else {} => Snap(handlers[i]));
    var n := 0;
    while n < |handlers|
      invariant 0 <= n <= |handlers|
      invariant forall i :: 0 <= i < n ==> Delivered(handlers[i], before[i], key, down)
      invariant forall i :: n <= i < |handlers| ==> Consistent(handlers[i]) && Snap(handlers[i]) == before[i]
    {
      FootprintWithin(handlers, n);
      label Pre:
      Deliver(handlers[n], key, down);
      forall i | 0 <= i < |handlers| && i != n
        ensures unchanged@Pre(Footprint(handlers[i]))
      {
        assert Footprint(handlers[i]) !! Footprint(handlers[n]);
      }
      n := n + 1;
    }
  }
}
