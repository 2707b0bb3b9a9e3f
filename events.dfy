/** Values shared by every part of the gesture library: pointer actions,
    pointer events, optional values and the identities of host-supplied
    listener objects. */
module Events {

  datatype Option<+T> = None | Some(value: T)

  /** The action of a pointer event. `Other` stands for every action code the
      library does not switch on (pointer-down of a second finger, hover, ...). */
  datatype Action = Down | Move | Up | Cancel | Other

  /** UP and CANCEL end a press-to-release cycle. */
  predicate IsTerminal(a: Action) {
    a.Up? || a.Cancel?
  }

  /** A raw screen position. The platform reports floats; every retained use
      is a subtraction or a sign test, so integers stand in for them. */
  datatype Point = Point(x: int, y: int)

  /** A pointer event: its action and its raw position. */
  datatype MotionEvent = MotionEvent(action: Action, raw: Point)

  /** The identity of a listener object registered by the host; the library
      only ever calls such an object, so its identity is all the model keeps. */
  datatype Listener = Listener(id: nat)

  /** Who receives a notification: the protected no-op hook of the class itself,
      or the registered listener. */
  datatype Receiver = Hook | ToListener(listener: Listener)

  /** The receivers of one notification: the hook always, then the listener if
      one is registered. */
  function Receivers(listener: Option<Listener>): (rs: seq<Receiver>)
    ensures |rs| == if listener.Some? then 2 else 1
    ensures rs[0] == Hook
    ensures listener.Some? ==> rs[1] == ToListener(listener.value)
  {
    if listener.Some? then [Hook, ToListener(listener.value)] else [Hook]
  }
}
