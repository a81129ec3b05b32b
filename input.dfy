/** The keyboard half of the demo: the four movement flags, the KeyboardEvent codes that
    drive them, and what a key-down or a key-up event does to them. */
module Input {

  datatype Option<T> = None | Some(value: T)

  /** The four directions the demo keeps a flag for. */
  datatype Move = Forward | Backward | Left | Right

  /** The flags moveForward, moveBackward, moveLeft and moveRight, as one value. */
  datatype Keys = Keys(forward: bool, backward: bool, left: bool, right: bool)
  {
    /** The flag kept for m. */
    function Held(m: Move): bool {
      match m
      case Forward => forward
      case Backward => backward
      case Left => left
      case Right => right
    }

    /** These flags with the one for m set to b and the other three as they are. */
    function With(m: Move, b: bool): (k: Keys)
      ensures k.Held(m) == b
      ensures forall n :: n != m ==> k.Held(n) == Held(n)
    {
      match m
      case Forward => this.(forward := b)
      case Backward => this.(backward := b)
      case Left => this.(left := b)
      case Right => this.(right := b)
    }
  }

  /** The flags as the program starts: nothing held. */
  const NoKeys := Keys(false, false, false, false)

  /** The flag a key code drives: the case labels shared by both switch statements
      (an arrow key and its WASD alias for each direction); every other code drives none. */
  function Binding(code: string): Option<Move> {
    match code
    case "ArrowUp" | "KeyW" => Some(Forward)
    case "ArrowDown" | "KeyS" => Some(Backward)
    case "ArrowLeft" | "KeyA" => Some(Left)
    case "ArrowRight" | "KeyD" => Some(Right)
    case _ => None
  }

  /** The flags after a key-down event with this code: a flag is held afterwards exactly
      when it was held before or the code is bound to it. */
  function Press(k: Keys, code: string): (r: Keys)
    ensures forall m :: r.Held(m) == (k.Held(m) || Binding(code) == Some(m))
  {
    match Binding(code)
    case Some(m) => k.With(m, true)
    case None => k
  }

  /** The flags after a key-up event with this code: a flag is held afterwards exactly
      when it was held before and the code is not bound to it. */
  function Release(k: Keys, code: string): (r: Keys)
    ensures forall m :: r.Held(m) == (k.Held(m) && Binding(code) != Some(m))
  {
    match Binding(code)
    case Some(m) => k.With(m, false)
    case None => k
  }

  /** Each direction is bound to exactly its two codes, and no other code is bound. */
  lemma BindingAliases(code: string)
    ensures Binding(code) == Some(Forward) <==> code == "ArrowUp" || code == "KeyW"
    ensures Binding(code) == Some(Backward) <==> code == "ArrowDown" || code == "KeyS"
    ensures Binding(code) == Some(Left) <==> code == "ArrowLeft" || code == "KeyA"
    ensures Binding(code) == Some(Right) <==> code == "ArrowRight" || code == "KeyD"
    ensures Binding(code) == None <==>
      code !in {"ArrowUp", "KeyW", "ArrowDown", "KeyS", "ArrowLeft", "KeyA", "ArrowRight", "KeyD"}
  {
  }

  /** A key-down of a bound code makes its flag true and leaves the other three alone. */
  lemma PressSetsOnlyItsFlag(k: Keys, code: string, m: Move)
    requires Binding(code) == Some(m)
    ensures Press(k, code).Held(m)
    ensures forall n :: n != m ==> Press(k, code).Held(n) == k.Held(n)
  {
  }

  /** A key-up of a bound code makes its flag false and leaves the other three alone. */
  lemma ReleaseClearsOnlyItsFlag(k: Keys, code: string, m: Move)
    requires Binding(code) == Some(m)
    ensures !Release(k, code).Held(m)
    ensures forall n :: n != m ==> Release(k, code).Held(n) == k.Held(n)
  {
  }

  /** Key events with a code outside the eight bound ones change nothing. */
  lemma UnboundCodeIgnored(k: Keys, code: string)
    requires Binding(code) == None
    ensures Press(k, code) == k && Release(k, code) == k
  {
  }

  /** Releasing either alias undoes a press of either alias: the flag ends false
      whichever of its two codes pressed it, and the other flags are as before the press. */
  lemma ReleaseByEitherAlias(k: Keys, down: string, up: string, m: Move)
    requires Binding(down) == Some(m) && Binding(up) == Some(m)
    ensures Release(Press(k, down), up) == k.With(m, false)
  {
  }

  /** Press then release of one direction, with no other event, restores the flags,
      when that flag was not held before; in particular from the initial state. */
  lemma PressReleaseRoundTrip(k: Keys, down: string, up: string)
    requires Binding(down) == Binding(up)
    requires Binding(down).Some? ==> !k.Held(Binding(down).value)
    ensures Release(Press(k, down), up) == k
  {
  }

  /** Repeating a key-down, or a key-up, changes nothing more (keyboard auto-repeat). */
  lemma EventsIdempotent(k: Keys, code: string)
    ensures Press(Press(k, code), code) == Press(k, code)
    ensures Release(Release(k, code), code) == Release(k, code)
  {
  }

  /** Key-downs and key-ups of different directions commute. */
  lemma DistinctDirectionsCommute(k: Keys, a: string, b: string, pa: bool, pb: bool)
    requires Binding(a) != Binding(b)
    ensures Apply(Apply(k, Event(a, pa)), Event(b, pb)) == Apply(Apply(k, Event(b, pb)), Event(a, pa))
  {
    match Binding(a)
    case None =>
    case Some(ma) =>
      match Binding(b)
      case None =>
      case Some(mb) =>
        WithCommutes(k, ma, pa, mb, pb);
  }

  /** Setting two different flags gives the same flags in either order. */
  lemma WithCommutes(k: Keys, m: Move, b: bool, n: Move, c: bool)
    requires m != n
    ensures k.With(m, b).With(n, c) == k.With(n, c).With(m, b)
  {
    match m
    case Forward =>
    case Backward =>
    case Left =>
    case Right =>
  }

  /** One key event as the browser delivers it: a code and whether it is a key-down. */
  datatype Event = Event(code: string, down: bool)

  /** The flags after one event, whichever handler it goes to: the flag the code is bound
      to becomes whether the event is a key-down, and every other flag is kept. */
  function Apply(k: Keys, e: Event): (r: Keys)
    ensures forall m :: r.Held(m) == if Binding(e.code) == Some(m) then e.down else k.Held(m)
  {
    if e.down then Press(k, e.code) else Release(k, e.code)
  }

  /** The flags after a sequence of events, delivered in order. */
  function Replay(k: Keys, es: seq<Event>): Keys
    decreases |es|
  {
    if es == [] then k else Apply(Replay(k, es[..|es| - 1]), es[|es| - 1])
  }

  /** Of the events in es bound to m, whether the last one was a key-down; None when
      no event in es is bound to m. */
  function LastFor(es: seq<Event>, m: Move): Option<bool>
    decreases |es|
  {
    if es == [] then None
    else if Binding(es[|es| - 1].code) == Some(m) then Some(es[|es| - 1].down)
    else LastFor(es[..|es| - 1], m)
  }

  /** After any sequence of key events, a flag is true exactly when the last event bound to
      its direction, through either alias, was a key-down; with no such event it keeps its
      value. So each flag tracks "is a key of this direction down" as last reported. */
  lemma {:induction false} ReplayLastEventWins(k: Keys, es: seq<Event>, m: Move)
    ensures Replay(k, es).Held(m) == match LastFor(es, m) {
      case None => k.Held(m)
      case Some(d) => d
    }
    decreases |es|
  {
    if es != [] {
      ReplayLastEventWins(k, es[..|es| - 1], m);
    }
  }

  /** A sequence of events none of whose codes is bound leaves every flag as it was. */
  lemma {:induction false} UnboundEventsChangeNothing(k: Keys, es: seq<Event>)
    requires forall i :: 0 <= i < |es| ==> Binding(es[i].code) == None
    ensures Replay(k, es) == k
    decreases |es|
  {
    if es != [] {
      UnboundEventsChangeNothing(k, es[..|es| - 1]);
    }
  }
}
