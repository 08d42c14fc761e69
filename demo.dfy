/** The application's event loop: the state captured by `run`'s event
    closure (the key table, the camera angles, the compiled graph until it
    is disposed, and the mesh) and what one call of the closure does to it.

    `Step` is the closure as a function on values; `App.HandleEvent` is the
    same closure updating an object in place, proved to agree with `Step`.
    What the closure asks of the graph, the window and the factory is
    appended to an effect trace. */
module Demo {
  import opened Gpu

  /** The six key-table slots, numbered as the source numbers them. */
  datatype Direction = Left | Right | Up | Down | Forward | Backward

  const KEY_COUNT: nat := 6
  const PITCH_LIMIT: real := 1.57
  const MOUSE_SCALE: real := 0.005

  function Slot(d: Direction): (i: nat)
    ensures i < KEY_COUNT
  {
    match d
    case Left => 0
    case Right => 1
    case Up => 2
    case Down => 3
    case Forward => 4
    case Backward => 5
  }

  datatype Key = W | S | A | D | Space | LShift | OtherKey(code: nat)

  /** The direction a key controls, if any; `None` also for a keyboard event
      that carries no key code. */
  function Binding(key: Option<Key>): Option<Direction>
  {
    match key
    case Some(W) => Some(Forward)
    case Some(S) => Some(Backward)
    case Some(A) => Some(Left)
    case Some(D) => Some(Right)
    case Some(Space) => Some(Up)
    case Some(LShift) => Some(Down)
    case _ => None
  }

  function Min(a: real, b: real): real { if a <= b then a else b }
  function Max(a: real, b: real): real { if a >= b then a else b }
  function Distance(a: real, b: real): real { if a >= b then a - b else b - a }

  /** The pitch clamp: the result lies in the allowed range, leaves a pitch
      already in range alone, and is the allowed pitch nearest the input. */
  function ClampPitch(p: real): (r: real)
    ensures -PITCH_LIMIT <= r <= PITCH_LIMIT
    ensures -PITCH_LIMIT <= p <= PITCH_LIMIT ==> r == p
    ensures forall q :: -PITCH_LIMIT <= q <= PITCH_LIMIT ==> Distance(r, p) <= Distance(q, p)
  {
    Max(Min(p, PITCH_LIMIT), -PITCH_LIMIT)
  }

  /** What the window and the devices report. An event the closure ignores
      is one of the `Other...` cases. */
  datatype Event =
    | CloseRequested
    | Resized(width: nat, height: nat)
    | KeyboardInput(key: Option<Key>, pressed: bool)
    | OtherWindowEvent
    | MouseMotion(dx: real, dy: real)
    | OtherDeviceEvent
    | MainEventsCleared
    | RedrawRequested
    | OtherEvent

  datatype ControlFlow = Poll | Exit

  /** A request the closure makes of the graph, the window or the factory.
      `Move` stands for one step of camera movement: the position changes by
      `alongView` times the view direction, `sideways` times the strafe
      direction and `vertical` times the world up axis, each scaled by the
      elapsed time. */
  datatype Effect =
    | RequestRedraw
    | Maintain
    | RunGraph(graph: Id, mesh: Option<Id>)
    | Move(alongView: int, sideways: int, vertical: int)
    | DisposeGraph(graph: Id, mesh: Option<Id>)
    | DropMesh(mesh: Option<Id>)

  datatype AppState = AppState(
    keys: seq<bool>,
    yaw: real,
    pitch: real,
    graph: Option<Id>,
    mesh: Option<Id>,
    effects: seq<Effect>)

  /** The state `run` starts with: no key held, the camera level, the
      compiled graph and the loaded mesh present, nothing done yet. */
  function Initial(graph: Id, mesh: Id): AppState
  {
    AppState(seq(KEY_COUNT, _ => false), 0.0, 0.0, Some(graph), Some(mesh), [])
  }

  function Held(keys: seq<bool>, d: Direction): int
    requires |keys| == KEY_COUNT
  {
    if keys[Slot(d)] then 1 else 0
  }

  /** The movement held keys ask for: the forward key moves against the
      view direction, the right key against the strafe direction and the up
      key down the world axis, as the source does. */
  function Motion(keys: seq<bool>): Effect
    requires |keys| == KEY_COUNT
  {
    Move(Held(keys, Backward) - Held(keys, Forward),
         Held(keys, Left) - Held(keys, Right),
         Held(keys, Down) - Held(keys, Up))
  }

  /** The control flow the closure leaves for the event loop. */
  function Flow(e: Event): ControlFlow
  {
    if e.CloseRequested? then Exit else Poll
  }

  /** The closure's dispatch on one event, before the exit check. */
  function Dispatch(s: AppState, e: Event): (t: AppState)
    requires |s.keys| == KEY_COUNT
    ensures |t.keys| == KEY_COUNT
  {
    match e
    case KeyboardInput(key, pressed) =>
      (match Binding(key)
       case Some(d) => s.(keys := s.keys[Slot(d) := pressed])
       case None => s)
    case MouseMotion(dx, dy) =>
      s.(yaw := s.yaw + dx * MOUSE_SCALE, pitch := ClampPitch(s.pitch - dy * MOUSE_SCALE))
    case MainEventsCleared =>
      s.(effects := s.effects + [RequestRedraw, Maintain])
    case RedrawRequested =>
      var ran := if s.graph.Some? then [RunGraph(s.graph.value, s.mesh)] else [];
      s.(effects := s.effects + ran + [Motion(s.keys)])
    case _ => s
  }

  /** One call of the closure: dispatch, then, on exit with the graph still
      present, take and dispose the graph and then take and drop the mesh. */
  function Step(s: AppState, e: Event): (t: AppState)
    requires |s.keys| == KEY_COUNT
    ensures |t.keys| == KEY_COUNT
  {
    var d := Dispatch(s, e);
    if Flow(e) == Exit && d.graph.Some? then
      d.(graph := None, mesh := None,
         effects := d.effects + [DisposeGraph(d.graph.value, d.mesh), DropMesh(d.mesh)])
    else d
  }

  /** The state after the closure has seen each event in turn. */
  function Run(s: AppState, events: seq<Event>): (t: AppState)
    requires |s.keys| == KEY_COUNT
    ensures |t.keys| == KEY_COUNT
    decreases |events|
  {
    if events == [] then s else Run(Step(s, events[0]), events[1..])
  }

  /** The object the closure updates in place. */
  class App {
    const keys: array<bool>
    var yaw: real
    var pitch: real
    var graph: Option<Id>
    var mesh: Option<Id>
    var effects: seq<Effect>

    ghost predicate Valid()
      reads this
    {
      keys.Length == KEY_COUNT
    }

    ghost function State(): AppState
      reads this, keys
    {
      AppState(keys[..], yaw, pitch, graph, mesh, effects)
    }

    constructor (graph: Id, mesh: Id)
      ensures Valid() && fresh(keys)
      ensures State() == Initial(graph, mesh)
    {
      keys := new bool[KEY_COUNT](_ => false);
      yaw, pitch := 0.0, 0.0;
      this.graph := Some(graph);
      this.mesh := Some(mesh);
      effects := [];
    }

    /** Handles one event, as `run`'s closure does. */
    method HandleEvent(e: Event) returns (flow: ControlFlow)
      requires Valid()
      modifies this, keys
      ensures Valid()
      ensures flow == Flow(e)
      ensures State() == Step(old(State()), e)
    {
      flow := Poll;
      match e {
        case CloseRequested =>
          flow := Exit;
        case KeyboardInput(key, pressed) =>
          match key {
            case Some(W) => keys[Slot(Forward)] := pressed;
            case Some(S) => keys[Slot(Backward)] := pressed;
            case Some(A) => keys[Slot(Left)] := pressed;
            case Some(D) => keys[Slot(Right)] := pressed;
            case Some(Space) => keys[Slot(Up)] := pressed;
            case Some(LShift) => keys[Slot(Down)] := pressed;
            case _ =>
          }
        case MouseMotion(dx, dy) =>
          yaw := yaw + dx * MOUSE_SCALE;
          pitch := pitch - dy * MOUSE_SCALE;
          pitch := Max(Min(pitch, PITCH_LIMIT), -PITCH_LIMIT);
        case MainEventsCleared =>
          effects := effects + [RequestRedraw, Maintain];
        case RedrawRequested =>
          if graph.Some? {
            effects := effects + [RunGraph(graph.value, mesh)];
          }
          effects := effects + [Motion(keys[..])];
        case _ =>
      }
      if flow == Exit && graph.Some? {
        effects := effects + [DisposeGraph(graph.value, mesh)];
        graph := None;
        effects := effects + [DropMesh(mesh)];
        mesh := None;
      }
    }
  }

  // ---------------------------------------------------------------------
  // Properties of one step

  /** The six bound keys control six different slots, and every slot is
      controlled by some key. */
  lemma BindingIsOneToOne(k1: Option<Key>, k2: Option<Key>)
    requires Binding(k1).Some? && Binding(k1) == Binding(k2)
    ensures k1 == k2
  {
  }

  lemma EverySlotIsBound(i: nat)
    requires i < KEY_COUNT
    ensures exists k :: Binding(Some(k)).Some? && Slot(Binding(Some(k)).value) == i
  {
    var k := [A, D, Space, LShift, W, S][i];
    assert Binding(Some(k)).Some? && Slot(Binding(Some(k)).value) == i;
  }

  /** A bound key's event sets exactly its slot to whether it is pressed and
      changes nothing else. */
  lemma KeyEventSetsOneSlot(s: AppState, key: Option<Key>, pressed: bool)
    requires |s.keys| == KEY_COUNT && Binding(key).Some?
    ensures var t := Step(s, KeyboardInput(key, pressed));
            var i := Slot(Binding(key).value);
            && t.keys[i] == pressed
            && (forall j :: 0 <= j < KEY_COUNT && j != i ==> t.keys[j] == s.keys[j])
            && t.(keys := s.keys) == s
  {
  }

  /** A keyboard event without a bound key, a resize, and every event the
      closure ignores leave the state exactly as it was. */
  lemma IgnoredEventsChangeNothing(s: AppState, e: Event)
    requires |s.keys| == KEY_COUNT
    requires (e.KeyboardInput? && Binding(e.key).None?) || e.Resized?
             || e.OtherWindowEvent? || e.OtherDeviceEvent? || e.OtherEvent?
    ensures Step(s, e) == s && Flow(e) == Poll
  {
  }

  /** Mouse motion turns the yaw by exactly the scaled horizontal delta,
      unclamped, and the pitch by the scaled vertical delta clamped into the
      allowed range; clamping the new pitch again changes nothing. */
  lemma MouseMotionTurnsCamera(s: AppState, dx: real, dy: real)
    requires |s.keys| == KEY_COUNT
    ensures var t := Step(s, MouseMotion(dx, dy));
            && t.yaw == s.yaw + dx * MOUSE_SCALE
            && t.pitch == ClampPitch(s.pitch - dy * MOUSE_SCALE)
            && -PITCH_LIMIT <= t.pitch <= PITCH_LIMIT
            && ClampPitch(t.pitch) == t.pitch
            && t.(yaw := s.yaw, pitch := s.pitch) == s
  {
  }

  lemma ClampIsIdempotent(p: real)
    ensures ClampPitch(ClampPitch(p)) == ClampPitch(p)
  {
  }

  /** Each movement coefficient is -1, 0 or 1, and holding both keys of an
      opposing pair cancels the pair out. */
  lemma MotionIsBounded(keys: seq<bool>)
    requires |keys| == KEY_COUNT
    ensures var m := Motion(keys);
            && -1 <= m.alongView <= 1 && -1 <= m.sideways <= 1 && -1 <= m.vertical <= 1
            && (keys[Slot(Forward)] == keys[Slot(Backward)] <==> m.alongView == 0)
            && (keys[Slot(Left)] == keys[Slot(Right)] <==> m.sideways == 0)
            && (keys[Slot(Up)] == keys[Slot(Down)] <==> m.vertical == 0)
  {
  }

  // ---------------------------------------------------------------------
  // The disposal discipline over any run

  /** How many times the trace disposes the graph. */
  function Disposals(effects: seq<Effect>): nat
  {
    if effects == [] then 0
    else Disposals(effects[..|effects| - 1]) + (if effects[|effects| - 1].DisposeGraph? then 1 else 0)
  }

  lemma {:induction false} DisposalsAppend(a: seq<Effect>, b: seq<Effect>)
    ensures Disposals(a + b) == Disposals(a) + Disposals(b)
  {
    if b == [] {
      assert a + b == a;
    } else {
      assert (a + b)[..|a + b| - 1] == a + b[..|b| - 1];
      DisposalsAppend(a, b[..|b| - 1]);
    }
  }

  lemma {:induction false} NoDisposalsMeansNone(effects: seq<Effect>)
    requires Disposals(effects) == 0
    ensures forall i :: 0 <= i < |effects| ==> !effects[i].DisposeGraph?
  {
    if effects != [] {
      NoDisposalsMeansNone(effects[..|effects| - 1]);
      assert forall i :: 0 <= i < |effects| - 1 ==> effects[i] == effects[..|effects| - 1][i];
    }
  }

  /** What holds of the state the closure keeps, from the first event on.
      The graph and the mesh are present together until the one disposal;
      every disposal is immediately followed by dropping the mesh the graph
      was disposed with; the graph never runs after it is disposed, and it
      only ever runs with the mesh present. */
  ghost predicate Inv(s: AppState)
  {
    && |s.keys| == KEY_COUNT
    && -PITCH_LIMIT <= s.pitch <= PITCH_LIMIT
    && (s.graph.Some? <==> s.mesh.Some?)
    && (s.graph.Some? <==> Disposals(s.effects) == 0)
    && Disposals(s.effects) <= 1
    && (forall i, j :: 0 <= i < j < |s.effects| && s.effects[i].DisposeGraph? ==> !s.effects[j].RunGraph?)
    && (forall i :: 0 <= i < |s.effects| && s.effects[i].DisposeGraph? ==>
          && s.effects[i].mesh.Some?
          && i + 1 < |s.effects|
          && s.effects[i + 1] == DropMesh(s.effects[i].mesh))
    && (forall i :: 0 <= i < |s.effects| && s.effects[i].RunGraph? ==> s.effects[i].mesh.Some?)
  }

  lemma InitialInv(graph: Id, mesh: Id)
    ensures Inv(Initial(graph, mesh))
  {
  }

  lemma {:induction false} NoDisposalsCountZero(effects: seq<Effect>)
    requires forall i :: 0 <= i < |effects| ==> !effects[i].DisposeGraph?
    ensures Disposals(effects) == 0
  {
    if effects != [] {
      NoDisposalsCountZero(effects[..|effects| - 1]);
    }
  }

  /** The two effects of disposing: the graph, then the mesh it saw. */
  function Teardown(s: AppState): seq<Effect>
    requires s.graph.Some?
  {
    [DisposeGraph(s.graph.value, s.mesh), DropMesh(s.mesh)]
  }

  /** What a step appends to the trace when it does not dispose. */
  function Appended(s: AppState, e: Event): seq<Effect>
    requires |s.keys| == KEY_COUNT
  {
    match e
    case MainEventsCleared => [RequestRedraw, Maintain]
    case RedrawRequested =>
      (if s.graph.Some? then [RunGraph(s.graph.value, s.mesh)] else []) + [Motion(s.keys)]
    case _ => []
  }

  /** A step appends its dispatch effects, and the teardown exactly when it
      sees a close request with the graph still present. */
  lemma StepAppends(s: AppState, e: Event)
    requires |s.keys| == KEY_COUNT
    ensures Step(s, e).effects == s.effects + Appended(s, e)
                                  + (if e.CloseRequested? && s.graph.Some? then Teardown(s) else [])
    ensures forall i :: 0 <= i < |Appended(s, e)| ==> !Appended(s, e)[i].DisposeGraph?
    ensures forall i :: 0 <= i < |Appended(s, e)| && Appended(s, e)[i].RunGraph? ==>
              Appended(s, e)[i] == RunGraph(s.graph.value, s.mesh) && s.graph.Some?
  {
  }

  lemma TeardownDisposesOnce(s: AppState)
    requires s.graph.Some?
    ensures Disposals(Teardown(s)) == 1
  {
    var tail := Teardown(s);
    assert tail[..1] == [tail[0]] && [tail[0]][..0] == [];
    assert Disposals([tail[0]]) == 1;
    assert Disposals(tail) == Disposals(tail[..1]) + 0;
  }

  /** The graph is disposed in a step exactly when the event is a close
      request and the graph is still present. */
  lemma DisposesOnlyOnClose(s: AppState, e: Event)
    requires |s.keys| == KEY_COUNT
    ensures Disposals(Step(s, e).effects)
            == Disposals(s.effects) + (if e.CloseRequested? && s.graph.Some? then 1 else 0)
    ensures Step(s, e).graph.None? <==> s.graph.None? || e.CloseRequested?
  {
    StepAppends(s, e);
    NoDisposalsCountZero(Appended(s, e));
    DisposalsAppend(s.effects, Appended(s, e));
    if e.CloseRequested? && s.graph.Some? {
      TeardownDisposesOnce(s);
      DisposalsAppend(s.effects + Appended(s, e), Teardown(s));
    } else {
      assert Step(s, e).effects == s.effects + Appended(s, e);
    }
  }

  lemma AppendKeepsInv(s: AppState, t: AppState, suffix: seq<Effect>)
    requires Inv(s)
    requires |t.keys| == KEY_COUNT && -PITCH_LIMIT <= t.pitch <= PITCH_LIMIT
    requires t.graph == s.graph && t.mesh == s.mesh
    requires t.effects == s.effects + suffix
    requires forall i :: 0 <= i < |suffix| ==> !suffix[i].DisposeGraph?
    requires forall i :: 0 <= i < |suffix| && suffix[i].RunGraph? ==> s.graph.Some? && suffix[i].mesh == s.mesh
    ensures Inv(t)
  {
    NoDisposalsCountZero(suffix);
    DisposalsAppend(s.effects, suffix);
    if s.graph.Some? {
      NoDisposalsMeansNone(s.effects);
    }
  }

  lemma DisposeKeepsInv(s: AppState, t: AppState)
    requires Inv(s) && s.graph.Some?
    requires t == s.(graph := None, mesh := None, effects := s.effects + Teardown(s))
    ensures Inv(t)
  {
    NoDisposalsMeansNone(s.effects);
    TeardownDisposesOnce(s);
    DisposalsAppend(s.effects, Teardown(s));
  }

  lemma {:induction false} StepPreservesInv(s: AppState, e: Event)
    requires Inv(s)
    ensures Inv(Step(s, e))
  {
    StepAppends(s, e);
    var d := Dispatch(s, e);
    assert -PITCH_LIMIT <= d.pitch <= PITCH_LIMIT;
    AppendKeepsInv(s, d, Appended(s, e));
    if e.CloseRequested? && s.graph.Some? {
      assert d == s;
      DisposeKeepsInv(s, Step(s, e));
    }
  }

  lemma {:induction false} RunPreservesInv(s: AppState, events: seq<Event>)
    requires Inv(s)
    ensures Inv(Run(s, events))
    decreases |events|
  {
    if events != [] {
      StepPreservesInv(s, events[0]);
      RunPreservesInv(Step(s, events[0]), events[1..]);
    }
  }

  /** Over any run, the graph is disposed at most once, and it has been
      disposed exactly when a close request has been seen. */
  lemma {:induction false} RunDisposesOnClose(s: AppState, events: seq<Event>)
    requires Inv(s)
    ensures Disposals(Run(s, events).effects) == 1
            <==> Disposals(s.effects) == 1 || CloseRequested in events
    decreases |events|
  {
    if events != [] {
      DisposesOnlyOnClose(s, events[0]);
      StepPreservesInv(s, events[0]);
      RunPreservesInv(Step(s, events[0]), events[1..]);
      RunDisposesOnClose(Step(s, events[0]), events[1..]);
      assert events == [events[0]] + events[1..];
    }
  }

  /** From the start of `run`: the graph is disposed at most once, exactly
      when a close request arrived, the mesh is dropped right after it, and
      no redraw runs the graph after it. */
  lemma DisposalDiscipline(graph: Id, mesh: Id, events: seq<Event>)
    ensures var t := Run(Initial(graph, mesh), events);
            && Inv(t)
            && (Disposals(t.effects) == 1 <==> CloseRequested in events)
            && (t.graph.None? <==> CloseRequested in events)
  {
    InitialInv(graph, mesh);
    RunPreservesInv(Initial(graph, mesh), events);
    RunDisposesOnClose(Initial(graph, mesh), events);
  }
}
