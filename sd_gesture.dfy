/** The `sd` gesture manager (com.sd.lib.gesture.FGestureManager): it turns a
    stream of pointer events, the answers of the host's policy callback and
    the start/compute/finish events of its scroller into intercept and consume
    decisions, keeps a per-cycle "has consumed" flag and a cancel flag, and
    maintains an Idle/Drag/Fling state.

    The pure part below is the specification: a Model of the manager's fields,
    one step function per entry point, and Run over a sequence of inputs. The
    class GestureManager at the end is the imperative manager, each method
    proved to perform its step function's effect. */
module SdGesture {
  import opened Events

  datatype State = Idle | Drag | Fling

  /** The identity of the policy callback passed to the constructor. */
  datatype Callback = Callback(id: nat)

  /** A call the manager makes on its policy callback or on the listener of
      its tag holder. The `Ask` notices are decisions asked of the policy. */
  datatype Notice =
    | AskIntercept(ev: MotionEvent)
    | AskActionDown(ev: MotionEvent)
    | AskConsume(ev: MotionEvent)
    | EventConsume(ev: MotionEvent)
    | EventFinish(hasConsumeEvent: bool, isCancelTouchEvent: bool, ev: MotionEvent)
    | StateChanged(oldState: State, newState: State)
    | TagInterceptChanged(to: Listener, tag: bool)
    | TagConsumeChanged(to: Listener, tag: bool)
    | ScrollerCompute(lastX: int, lastY: int, currX: int, currY: int)

  /** The manager's fields: the two tags and the listener of the inner tag
      holder, the state, the per-cycle flags, and whether a velocity tracker
      is currently held. */
  datatype Model = Model(
    tagIntercept: bool,
    tagConsume: bool,
    tagListener: Option<Listener>,
    state: State,
    hasConsumeEvent: bool,
    isCancelTouchEvent: bool,
    trackerAcquired: bool)

  const Initial := Model(false, false, None, Idle, false, false, false)

  /** A new model and the notices emitted on the way to it. */
  datatype Effect = Effect(model: Model, notices: seq<Notice>)

  /** A new model, the entry point's return value and the notices. */
  datatype Outcome = Outcome(model: Model, result: bool, notices: seq<Notice>)

  /** A model with the cycle's state cleared: no tag, no consumption, no
      cancel, no tracker. */
  predicate Cleared(m: Model) {
    !m.tagIntercept && !m.tagConsume && !m.hasConsumeEvent && !m.isCancelTouchEvent && !m.trackerAcquired
  }

  /** A cancelled cycle never holds a tag. */
  predicate Inv(m: Model) {
    m.isCancelTouchEvent ==> !m.tagIntercept && !m.tagConsume
  }

  // ---------- state ----------

  /** setState: the state becomes `s`, and onStateChanged is called once,
      with the old and the new state, exactly when they differ. */
  function SetStateStep(m: Model, s: State): (e: Effect)
    ensures e.model == m.(state := s)
    ensures m.state == s ==> e.notices == []
    ensures m.state != s ==> e.notices == [StateChanged(m.state, s)]
  {
    if m.state == s then Effect(m, [])
    else Effect(m.(state := s), [StateChanged(m.state, s)])
  }

  // ---------- the inner TagHolder, with the manager's hook overrides ----------

  function InterceptTagNotice(l: Option<Listener>, tag: bool): seq<Notice> {
    if l.Some? then [TagInterceptChanged(l.value, tag)] else []
  }

  function ConsumeTagNotice(l: Option<Listener>, tag: bool): seq<Notice> {
    if l.Some? then [TagConsumeChanged(l.value, tag)] else []
  }

  /** The holder's intercept setter: edge-only, and only the listener, if
      any, hears of a change. */
  function SetTagInterceptStep(m: Model, tag: bool): (e: Effect)
    ensures e.model == m.(tagIntercept := tag)
    ensures m.tagIntercept == tag ==> e.notices == []
    ensures m.tagIntercept != tag ==> e.notices == InterceptTagNotice(m.tagListener, tag)
  {
    if m.tagIntercept == tag then Effect(m, [])
    else Effect(m.(tagIntercept := tag), InterceptTagNotice(m.tagListener, tag))
  }

  /** The consume hook override enters Drag when the tag becomes true, before
      the listener hears of the change. */
  function SetTagConsumeStep(m: Model, tag: bool): (e: Effect)
    ensures m.tagConsume == tag ==> e == Effect(m, [])
    ensures m.tagConsume != tag && !tag ==>
      e == Effect(m.(tagConsume := false), ConsumeTagNotice(m.tagListener, false))
    ensures m.tagConsume != tag && tag ==>
      && e.model == m.(tagConsume := true, state := Drag)
      && e.notices == (if m.state != Drag then [StateChanged(m.state, Drag)] else [])
           + ConsumeTagNotice(m.tagListener, true)
  {
    if m.tagConsume == tag then Effect(m, [])
    else
      var m1 := m.(tagConsume := tag);
      var s := if tag then SetStateStep(m1, Drag) else Effect(m1, []);
      Effect(s.model, s.notices + ConsumeTagNotice(m.tagListener, tag))
  }

  /** reset clears both tags and tells the listener of each tag that was
      set, intercept first. */
  function ResetTagsStep(m: Model): (e: Effect)
    ensures e == Effect(m.(tagIntercept := false, tagConsume := false), ResetNotices(m))
  {
    var a := SetTagInterceptStep(m, false);
    var b := SetTagConsumeStep(a.model, false);
    Effect(b.model, a.notices + b.notices)
  }

  /** The listener notices of a reset: one per tag that was set. */
  function ResetNotices(m: Model): seq<Notice> {
    (if m.tagIntercept then InterceptTagNotice(m.tagListener, false) else [])
    + (if m.tagConsume then ConsumeTagNotice(m.tagListener, false) else [])
  }

  // ---------- cycle end ----------

  /** onEventFinish: reset the tags, report the pre-clear flags to the
      policy, clear the flags, release the tracker, leave Drag for Idle. */
  function FinishStep(m: Model, ev: MotionEvent): (e: Effect)
    ensures CycleFinished(m, ev, e.model, e.notices)
  {
    var r := ResetTagsStep(m);
    var m1 := r.model.(hasConsumeEvent := false, isCancelTouchEvent := false, trackerAcquired := false);
    var s := if m1.state == Drag then SetStateStep(m1, Idle) else Effect(m1, []);
    Effect(s.model, r.notices + [EventFinish(m.hasConsumeEvent, m.isCancelTouchEvent, ev)] + s.notices)
  }

  /** What ending a cycle from `m` with `ev` leaves and emits: everything
      cleared, Drag turned to Idle, and the notices in the source's order:
      the tag resets, the policy's finish call with the flags as they were
      before clearing, then the state change. */
  predicate CycleFinished(m: Model, ev: MotionEvent, after: Model, notices: seq<Notice>) {
    && Cleared(after)
    && after.tagListener == m.tagListener
    && after.state == (if m.state == Drag then Idle else m.state)
    && notices == ResetNotices(m)
         + [EventFinish(m.hasConsumeEvent, m.isCancelTouchEvent, ev)]
         + (if m.state == Drag then [StateChanged(Drag, Idle)] else [])
  }

  // ---------- entry points ----------

  /** onInterceptTouchEvent with `intercept` the answer shouldInterceptEvent
      would give. */
  function InterceptStep(m: Model, ev: MotionEvent, intercept: bool): (o: Outcome)
    ensures IsTerminal(ev.action) ==>
      !o.result && CycleFinished(m.(trackerAcquired := true), ev, o.model, o.notices)
    ensures !IsTerminal(ev.action) && !m.isCancelTouchEvent && m.tagIntercept ==>
      o == Outcome(m.(trackerAcquired := true), true, [])
    ensures !IsTerminal(ev.action) && m.isCancelTouchEvent ==>
      o == Outcome(m.(trackerAcquired := true), false, [])
    ensures !IsTerminal(ev.action) && !m.isCancelTouchEvent && !m.tagIntercept ==>
      && o.result == intercept
      && o.model == m.(trackerAcquired := true, tagIntercept := intercept)
      && o.notices == [AskIntercept(ev)] + (if intercept then InterceptTagNotice(m.tagListener, true) else [])
  {
    var m0 := m.(trackerAcquired := true);
    if IsTerminal(ev.action) then
      var f := FinishStep(m0, ev);
      Outcome(f.model, f.model.tagIntercept && !f.model.isCancelTouchEvent, f.notices)
    else if !m0.isCancelTouchEvent && !m0.tagIntercept then
      var e := SetTagInterceptStep(m0, intercept);
      Outcome(e.model, e.model.tagIntercept && !e.model.isCancelTouchEvent, [AskIntercept(ev)] + e.notices)
    else
      Outcome(m0, m0.tagIntercept && !m0.isCancelTouchEvent, [])
  }

  /** onTouchEvent with `down` the answer onEventActionDown would give and
      `consume` the answer shouldConsumeEvent would give. */
  function TouchStep(m: Model, ev: MotionEvent, down: bool, consume: bool): (o: Outcome)
    ensures IsTerminal(ev.action) ==>
      !o.result && CycleFinished(m.(trackerAcquired := true), ev, o.model, o.notices)
    ensures ev.action.Down? ==>
      o == Outcome(m.(trackerAcquired := true), down && !m.isCancelTouchEvent, [AskActionDown(ev)])
    ensures Continuing(ev.action) && m.isCancelTouchEvent ==>
      o == Outcome(m.(trackerAcquired := true), false, [])
    ensures Continuing(ev.action) && !m.isCancelTouchEvent && !m.tagConsume ==>
      && o.result == consume
      && o.model == m.(trackerAcquired := true, tagConsume := consume, state := if consume then Drag else m.state)
      && o.notices == [AskConsume(ev)]
           + (if consume && m.state != Drag then [StateChanged(m.state, Drag)] else [])
           + (if consume then ConsumeTagNotice(m.tagListener, true) else [])
    ensures Continuing(ev.action) && !m.isCancelTouchEvent && m.tagConsume ==>
      o == Outcome(m.(trackerAcquired := true, hasConsumeEvent := true), true, [EventConsume(ev)])
  {
    var m0 := m.(trackerAcquired := true);
    if IsTerminal(ev.action) then
      var f := FinishStep(m0, ev);
      Outcome(f.model, f.model.tagConsume && !f.model.isCancelTouchEvent, f.notices)
    else if ev.action.Down? then
      Outcome(m0, down && !m0.isCancelTouchEvent, [AskActionDown(ev)])
    else if m0.isCancelTouchEvent then
      Outcome(m0, m0.tagConsume && !m0.isCancelTouchEvent, [])
    else if !m0.tagConsume then
      var e := SetTagConsumeStep(m0, consume);
      Outcome(e.model, e.model.tagConsume && !e.model.isCancelTouchEvent, [AskConsume(ev)] + e.notices)
    else
      var m1 := m0.(hasConsumeEvent := true);
      Outcome(m1, m1.tagConsume && !m1.isCancelTouchEvent, [EventConsume(ev)])
  }

  /** A MOVE or any other action that neither starts nor ends the cycle. */
  predicate Continuing(a: Action) {
    !IsTerminal(a) && !a.Down?
  }

  /** setCancelTouchEvent: acts only while some tag is set, then marks the
      cycle cancelled and resets the tags. */
  function CancelStep(m: Model): (e: Effect)
    ensures m.tagIntercept || m.tagConsume ==>
      e == Effect(m.(isCancelTouchEvent := true, tagIntercept := false, tagConsume := false), ResetNotices(m))
    ensures !m.tagIntercept && !m.tagConsume ==> e == Effect(m, [])
  {
    if m.tagConsume || m.tagIntercept then
      ResetTagsStep(m.(isCancelTouchEvent := true))
    else Effect(m, [])
  }

  /** The scroller started a scroll or a fling: the manager enters Fling,
      reporting it only when it was in another state. */
  function ScrollerStartStep(m: Model): (e: Effect)
    ensures e.model == m.(state := Fling)
    ensures e.notices == if m.state == Fling then [] else [StateChanged(m.state, Fling)]
  {
    SetStateStep(m, Fling)
  }

  /** The scroller finished: Idle, unless a drag holds the consume tag. */
  function ScrollerFinishStep(m: Model, isAbort: bool): (e: Effect)
    ensures e.model == m.(state := if m.tagConsume then m.state else Idle)
    ensures e.notices == if m.tagConsume || m.state == Idle then [] else [StateChanged(m.state, Idle)]
  {
    if !m.tagConsume then SetStateStep(m, Idle) else Effect(m, [])
  }

  /** The scroller computed a new position, which the policy hears of; the
      manager itself does not change. */
  function ScrollerComputeStep(m: Model, lastX: int, lastY: int, currX: int, currY: int): (e: Effect)
    ensures e.model == m
    ensures e.notices == [ScrollerCompute(lastX, lastY, currX, currY)]
  {
    Effect(m, [ScrollerCompute(lastX, lastY, currX, currY)])
  }

  // ---------- runs ----------

  /** One call into the manager from the host or from its scroller. The
      policy answers are part of the input; each is heard only if asked. */
  datatype Input =
    | Intercept(ev: MotionEvent, intercept: bool)
    | Touch(ev: MotionEvent, down: bool, consume: bool)
    | CancelTouchEvent
    | ScrollerStarted
    | ScrollerComputed(lastX: int, lastY: int, currX: int, currY: int)
    | ScrollerFinished(isAbort: bool)

  /** An input that ends the cycle. */
  predicate Ends(i: Input) {
    (i.Intercept? || i.Touch?) && IsTerminal(i.ev.action)
  }

  function Apply(m: Model, i: Input): Outcome {
    match i
    case Intercept(ev, intercept) => InterceptStep(m, ev, intercept)
    case Touch(ev, down, consume) => TouchStep(m, ev, down, consume)
    case CancelTouchEvent => var e := CancelStep(m); Outcome(e.model, false, e.notices)
    case ScrollerStarted => var e := ScrollerStartStep(m); Outcome(e.model, false, e.notices)
    case ScrollerComputed(lx, ly, cx, cy) =>
      var e := ScrollerComputeStep(m, lx, ly, cx, cy); Outcome(e.model, false, e.notices)
    case ScrollerFinished(isAbort) => var e := ScrollerFinishStep(m, isAbort); Outcome(e.model, false, e.notices)
  }

  /** The model, the return value of every input, and all notices of a run. */
  datatype Trace = Trace(model: Model, results: seq<bool>, notices: seq<Notice>)

  function Run(m: Model, ins: seq<Input>): (t: Trace)
    ensures |t.results| == |ins|
    decreases |ins|
  {
    if ins == [] then Trace(m, [], [])
    else
      var o := Apply(m, ins[0]);
      var rest := Run(o.model, ins[1..]);
      Trace(rest.model, [o.result] + rest.results, o.notices + rest.notices)
  }

  // ---------- properties of runs ----------

  predicate HasEventConsume(ns: seq<Notice>) {
    exists k :: 0 <= k < |ns| && ns[k].EventConsume?
  }

  lemma HasEventConsumeAppend(a: seq<Notice>, b: seq<Notice>)
    ensures HasEventConsume(a + b) <==> HasEventConsume(a) || HasEventConsume(b)
  {
    if HasEventConsume(a + b) {
      var k :| 0 <= k < |a + b| && (a + b)[k].EventConsume?;
      if k >= |a| {
        assert b[k - |a|].EventConsume?;
      }
    }
    if HasEventConsume(a) {
      var k :| 0 <= k < |a| && a[k].EventConsume?;
      assert (a + b)[k].EventConsume?;
    }
    if HasEventConsume(b) {
      var k :| 0 <= k < |b| && b[k].EventConsume?;
      assert (a + b)[|a| + k].EventConsume?;
    }
  }

  /** One input keeps a cancelled cycle free of tags: only the cancel input
      and the cycle end set or clear the cancel flag, and both leave no tag. */
  lemma InvStep(m: Model, i: Input)
    requires Inv(m)
    ensures Inv(Apply(m, i).model)
  {
    match i
    case Intercept(ev, intercept) =>
    case Touch(ev, down, consume) =>
    case CancelTouchEvent =>
    case ScrollerStarted =>
    case ScrollerComputed(lx, ly, cx, cy) =>
    case ScrollerFinished(isAbort) =>
  }

  lemma {:induction false} InvHolds(m: Model, ins: seq<Input>)
    requires Inv(m)
    ensures Inv(Run(m, ins).model)
    decreases |ins|
  {
    if ins != [] {
      InvStep(m, ins[0]);
      InvHolds(Apply(m, ins[0]).model, ins[1..]);
    }
  }

  /** No notice asks shouldInterceptEvent. */
  predicate NoAskIntercept(ns: seq<Notice>) {
    forall k :: 0 <= k < |ns| ==> !ns[k].AskIntercept?
  }

  lemma NoAskInterceptAppend(a: seq<Notice>, b: seq<Notice>)
    requires NoAskIntercept(a) && NoAskIntercept(b)
    ensures NoAskIntercept(a + b)
  {
    forall k | 0 <= k < |a + b|
      ensures !(a + b)[k].AskIntercept?
    {
      if k >= |a| {
        assert (a + b)[k] == b[k - |a|];
      }
    }
  }

  /** Every interception call among `ins` returned true in `rs`. */
  predicate InterceptsAnswered(ins: seq<Input>, rs: seq<bool>) {
    |rs| == |ins| && forall k :: 0 <= k < |ins| && ins[k].Intercept? ==> rs[k]
  }

  lemma InterceptsAnsweredCons(i: Input, r: bool, ins: seq<Input>, rs: seq<bool>)
    requires i.Intercept? ==> r
    requires InterceptsAnswered(ins, rs)
    ensures InterceptsAnswered([i] + ins, [r] + rs)
  {
    forall k | 0 <= k < |[i] + ins| && ([i] + ins)[k].Intercept?
      ensures ([r] + rs)[k]
    {
      if k > 0 {
        assert ([i] + ins)[k] == ins[k - 1];
        assert ([r] + rs)[k] == rs[k - 1];
      }
    }
  }

  /** One input of an intercepted cycle keeps it intercepted and never asks
      shouldInterceptEvent; an interception call answers true at once. */
  lemma InterceptedStep(m: Model, i: Input)
    requires m.tagIntercept && !m.isCancelTouchEvent
    requires !Ends(i) && !i.CancelTouchEvent?
    ensures Apply(m, i).model.tagIntercept && !Apply(m, i).model.isCancelTouchEvent
    ensures i.Intercept? ==> Apply(m, i).result && Apply(m, i).notices == []
    ensures NoAskIntercept(Apply(m, i).notices)
  {
    match i
    case Intercept(ev, intercept) =>
    case Touch(ev, down, consume) =>
    case ScrollerStarted =>
    case ScrollerComputed(lx, ly, cx, cy) =>
    case ScrollerFinished(isAbort) =>
  }

  /** Monotonic interception: once the intercept tag is set in a cycle that
      is not cancelled, every later interception call of the cycle returns
      true without consulting shouldInterceptEvent again, until the cycle
      ends or is cancelled. */
  lemma {:induction false} InterceptionHolds(m: Model, ins: seq<Input>)
    requires m.tagIntercept && !m.isCancelTouchEvent
    requires forall k :: 0 <= k < |ins| ==> !Ends(ins[k]) && !ins[k].CancelTouchEvent?
    ensures Run(m, ins).model.tagIntercept && !Run(m, ins).model.isCancelTouchEvent
    ensures InterceptsAnswered(ins, Run(m, ins).results)
    ensures NoAskIntercept(Run(m, ins).notices)
    decreases |ins|
  {
    if ins != [] {
      var o := Apply(m, ins[0]);
      InterceptedStep(m, ins[0]);
      var rest := Run(o.model, ins[1..]);
      assert forall k :: 0 <= k < |ins[1..]| ==> ins[1..][k] == ins[k + 1];
      InterceptionHolds(o.model, ins[1..]);
      InterceptsAnsweredCons(ins[0], o.result, ins[1..], rest.results);
      assert [ins[0]] + ins[1..] == ins;
      NoAskInterceptAppend(o.notices, rest.notices);
    }
  }

  /** No notice asks an interception or consumption decision or reports a
      consumed event. */
  predicate Silent(ns: seq<Notice>) {
    forall k :: 0 <= k < |ns| ==> !ns[k].AskIntercept? && !ns[k].AskConsume? && !ns[k].EventConsume?
  }

  lemma SilentAppend(a: seq<Notice>, b: seq<Notice>)
    requires Silent(a) && Silent(b)
    ensures Silent(a + b)
  {
    forall k | 0 <= k < |a + b|
      ensures !(a + b)[k].AskIntercept? && !(a + b)[k].AskConsume? && !(a + b)[k].EventConsume?
    {
      if k >= |a| {
        assert (a + b)[k] == b[k - |a|];
      }
    }
  }

  /** Every call returned false. */
  predicate AllFalse(rs: seq<bool>) {
    forall k :: 0 <= k < |rs| ==> !rs[k]
  }

  lemma AllFalseCons(r: bool, rs: seq<bool>)
    requires !r && AllFalse(rs)
    ensures AllFalse([r] + rs)
  {
    forall k | 0 <= k < |[r] + rs|
      ensures !([r] + rs)[k]
    {
      if k > 0 {
        assert ([r] + rs)[k] == rs[k - 1];
      }
    }
  }

  /** One input of a cancelled cycle that does not end it: the call
      returns false, asks no decision, reports no consumption, and the cycle
      stays cancelled. */
  lemma CancelledStep(m: Model, i: Input)
    requires m.isCancelTouchEvent && Inv(m) && !Ends(i)
    ensures Apply(m, i).model.isCancelTouchEvent && Inv(Apply(m, i).model) && !Apply(m, i).result
    ensures Silent(Apply(m, i).notices)
  {
    match i
    case Intercept(ev, intercept) =>
    case Touch(ev, down, consume) =>
    case CancelTouchEvent =>
    case ScrollerStarted =>
    case ScrollerComputed(lx, ly, cx, cy) =>
    case ScrollerFinished(isAbort) =>
  }

  /** After setCancelTouchEvent took effect, and until the cycle ends, every
      call returns false and the policy is asked no interception or
      consumption decision and hears of no consumed event; only the press
      callback onEventActionDown is still asked, its answer discarded. */
  lemma {:induction false} CancelledCycleIsSilent(m: Model, ins: seq<Input>)
    requires m.isCancelTouchEvent && Inv(m)
    requires forall k :: 0 <= k < |ins| ==> !Ends(ins[k])
    ensures Run(m, ins).model.isCancelTouchEvent && Inv(Run(m, ins).model)
    ensures AllFalse(Run(m, ins).results)
    ensures Silent(Run(m, ins).notices)
    decreases |ins|
  {
    if ins != [] {
      var o := Apply(m, ins[0]);
      CancelledStep(m, ins[0]);
      assert forall k :: 0 <= k < |ins[1..]| ==> ins[1..][k] == ins[k + 1];
      CancelledCycleIsSilent(o.model, ins[1..]);
      var rest := Run(o.model, ins[1..]);
      AllFalseCons(o.result, rest.results);
      SilentAppend(o.notices, rest.notices);
    }
  }

  /** Within one input that does not end the cycle, the has-consumed flag
      is set exactly when it was already set or onEventConsume is called. */
  lemma InterceptConsumes(m: Model, ev: MotionEvent, intercept: bool)
    requires !IsTerminal(ev.action)
    ensures InterceptStep(m, ev, intercept).model.hasConsumeEvent == m.hasConsumeEvent
    ensures !HasEventConsume(InterceptStep(m, ev, intercept).notices)
  {
    var o := InterceptStep(m, ev, intercept);
    assert forall k :: 0 <= k < |o.notices| ==> !o.notices[k].EventConsume?;
  }

  lemma TouchConsumes(m: Model, ev: MotionEvent, down: bool, consume: bool)
    requires !IsTerminal(ev.action)
    ensures TouchStep(m, ev, down, consume).model.hasConsumeEvent ==
      (m.hasConsumeEvent || HasEventConsume(TouchStep(m, ev, down, consume).notices))
  {
    var o := TouchStep(m, ev, down, consume);
    if Continuing(ev.action) && !m.isCancelTouchEvent && m.tagConsume {
      assert o.notices[0].EventConsume?;
    } else {
      assert forall k :: 0 <= k < |o.notices| ==> !o.notices[k].EventConsume?;
    }
  }

  lemma NoConsumeIn(ns: seq<Notice>)
    requires forall k :: 0 <= k < |ns| ==> !ns[k].EventConsume?
    ensures !HasEventConsume(ns)
  {
  }

  lemma ConsumeStep(m: Model, i: Input)
    requires !Ends(i)
    ensures Apply(m, i).model.hasConsumeEvent == (m.hasConsumeEvent || HasEventConsume(Apply(m, i).notices))
  {
    if i.Intercept? {
      InterceptConsumes(m, i.ev, i.intercept);
    } else if i.Touch? {
      TouchConsumes(m, i.ev, i.down, i.consume);
    } else {
      SideStepConsumes(m, i);
    }
  }

  /** The inputs that are not touch entry points neither consume nor touch
      the has-consumed flag. */
  lemma SideStepConsumes(m: Model, i: Input)
    requires !i.Intercept? && !i.Touch?
    ensures Apply(m, i).model.hasConsumeEvent == m.hasConsumeEvent
    ensures !HasEventConsume(Apply(m, i).notices)
  {
    match i
    case CancelTouchEvent => CancelQuiet(m);
    case ScrollerStarted => SetStateQuiet(m, Fling);
    case ScrollerComputed(lx, ly, cx, cy) => NoConsumeIn(ScrollerComputeStep(m, lx, ly, cx, cy).notices);
    case ScrollerFinished(isAbort) => if !m.tagConsume { SetStateQuiet(m, Idle); }
  }

  /** A reset's notices are tag notices only. */
  lemma ResetQuiet(m: Model)
    ensures !HasEventConsume(ResetNotices(m))
    ensures StateChain(m.state, ResetNotices(m), m.state)
  {
    var ns := ResetNotices(m);
    assert forall k :: 0 <= k < |ns| ==> ns[k].TagInterceptChanged? || ns[k].TagConsumeChanged?;
    NoConsumeIn(ns);
    QuietChain(m.state, ns);
  }

  /** setCancelTouchEvent keeps the state and the has-consumed flag and
      emits only tag notices. */
  lemma CancelQuiet(m: Model)
    ensures CancelStep(m).model.state == m.state
    ensures CancelStep(m).model.hasConsumeEvent == m.hasConsumeEvent
    ensures !HasEventConsume(CancelStep(m).notices)
    ensures StateChain(m.state, CancelStep(m).notices, m.state)
  {
    if m.tagIntercept || m.tagConsume {
      ResetQuiet(m);
    }
  }

  /** setState never reports a consumed event. */
  lemma SetStateQuiet(m: Model, s: State)
    ensures !HasEventConsume(SetStateStep(m, s).notices)
  {
    NoConsumeIn(SetStateStep(m, s).notices);
  }

  /** Within a cycle, the has-consumed flag is set exactly when the policy's
      onEventConsume has been called. */
  lemma {:induction false} ConsumeAggregation(m: Model, ins: seq<Input>)
    requires forall k :: 0 <= k < |ins| ==> !Ends(ins[k])
    ensures Run(m, ins).model.hasConsumeEvent == (m.hasConsumeEvent || HasEventConsume(Run(m, ins).notices))
    decreases |ins|
  {
    if ins != [] {
      var o := Apply(m, ins[0]);
      ConsumeStep(m, ins[0]);
      assert forall k :: 0 <= k < |ins[1..]| ==> ins[1..][k] == ins[k + 1];
      ConsumeAggregation(o.model, ins[1..]);
      var rest := Run(o.model, ins[1..]);
      assert Run(m, ins).notices == o.notices + rest.notices;
      HasEventConsumeAppend(o.notices, rest.notices);
    }
  }

  /** The input that ends a cycle reports to the policy whether
      onEventConsume was called in the cycle (or the flag was already set)
      and whether the cycle was cancelled, and leaves the cycle state
      cleared. */
  lemma FinishReportsCycle(m: Model, ins: seq<Input>, last: Input)
    requires forall k :: 0 <= k < |ins| ==> !Ends(ins[k])
    requires Ends(last)
    ensures Cleared(Apply(Run(m, ins).model, last).model)
    ensures EventFinish(m.hasConsumeEvent || HasEventConsume(Run(m, ins).notices),
                        Run(m, ins).model.isCancelTouchEvent, last.ev)
      in Apply(Run(m, ins).model, last).notices
  {
    ConsumeAggregation(m, ins);
    var t := Run(m, ins);
    var o := Apply(t.model, last);
    var f := EventFinish(t.model.hasConsumeEvent, t.model.isCancelTouchEvent, last.ev);
    var reset := ResetNotices(t.model);
    assert o.notices[|reset|] == f;
  }

  /** The state notices of `ns`, read in order, lead from `from` to `to`,
      each one a real change that starts where the previous one ended. */
  predicate StateChain(from: State, ns: seq<Notice>, to: State)
    decreases |ns|
  {
    if ns == [] then from == to
    else if ns[0].StateChanged? then
      ns[0].oldState == from && ns[0].newState != from && StateChain(ns[0].newState, ns[1..], to)
    else StateChain(from, ns[1..], to)
  }

  lemma {:induction false} StateChainAppend(a: State, x: seq<Notice>, b: State, y: seq<Notice>, c: State)
    requires StateChain(a, x, b) && StateChain(b, y, c)
    ensures StateChain(a, x + y, c)
    decreases |x|
  {
    if x == [] {
      assert x + y == y;
    } else {
      assert (x + y)[0] == x[0];
      assert (x + y)[1..] == x[1..] + y;
      if x[0].StateChanged? {
        StateChainAppend(x[0].newState, x[1..], b, y, c);
      } else {
        StateChainAppend(a, x[1..], b, y, c);
      }
    }
  }

  lemma {:induction false} QuietChain(s: State, ns: seq<Notice>)
    requires forall k :: 0 <= k < |ns| ==> !ns[k].StateChanged?
    ensures StateChain(s, ns, s)
    decreases |ns|
  {
    if ns != [] {
      QuietChain(s, ns[1..]);
    }
  }

  lemma SetStateChain(m: Model, s: State)
    ensures StateChain(m.state, SetStateStep(m, s).notices, SetStateStep(m, s).model.state)
  {
    if m.state != s {
      assert StateChain(s, [], s);
    }
  }

  lemma FinishChain(m: Model, ev: MotionEvent)
    ensures StateChain(m.state, FinishStep(m, ev).notices, FinishStep(m, ev).model.state)
  {
    var f := FinishStep(m, ev);
    var quiet := ResetNotices(m) + [EventFinish(m.hasConsumeEvent, m.isCancelTouchEvent, ev)];
    QuietChain(m.state, quiet);
    if m.state == Drag {
      assert StateChain(Idle, [], Idle);
      StateChainAppend(m.state, quiet, m.state, [StateChanged(Drag, Idle)], Idle);
    } else {
      assert quiet + [] == quiet;
    }
  }

  lemma InterceptChain(m: Model, ev: MotionEvent, intercept: bool)
    ensures StateChain(m.state, InterceptStep(m, ev, intercept).notices, InterceptStep(m, ev, intercept).model.state)
  {
    var o := InterceptStep(m, ev, intercept);
    if IsTerminal(ev.action) {
      FinishChain(m.(trackerAcquired := true), ev);
    } else {
      QuietChain(m.state, o.notices);
    }
  }

  lemma TouchChain(m: Model, ev: MotionEvent, down: bool, consume: bool)
    ensures StateChain(m.state, TouchStep(m, ev, down, consume).notices, TouchStep(m, ev, down, consume).model.state)
  {
    var o := TouchStep(m, ev, down, consume);
    if IsTerminal(ev.action) {
      FinishChain(m.(trackerAcquired := true), ev);
    } else if Continuing(ev.action) && !m.isCancelTouchEvent && !m.tagConsume && consume {
      var tagNotice := ConsumeTagNotice(m.tagListener, true);
      var change := if m.state != Drag then [StateChanged(m.state, Drag)] else [];
      QuietChain(m.state, [AskConsume(ev)]);
      QuietChain(Drag, tagNotice);
      SetStateChain(m.(tagConsume := true), Drag);
      StateChainAppend(m.state, [AskConsume(ev)], m.state, change, Drag);
      StateChainAppend(m.state, [AskConsume(ev)] + change, Drag, tagNotice, Drag);
    } else {
      QuietChain(m.state, o.notices);
    }
  }

  lemma StepChain(m: Model, i: Input)
    ensures StateChain(m.state, Apply(m, i).notices, Apply(m, i).model.state)
  {
    if i.Intercept? {
      InterceptChain(m, i.ev, i.intercept);
    } else if i.Touch? {
      TouchChain(m, i.ev, i.down, i.consume);
    } else {
      SideStepChain(m, i);
    }
  }

  /** The chain for the inputs that are not touch entry points. */
  lemma SideStepChain(m: Model, i: Input)
    requires !i.Intercept? && !i.Touch?
    ensures StateChain(m.state, Apply(m, i).notices, Apply(m, i).model.state)
  {
    match i
    case CancelTouchEvent => CancelQuiet(m);
    case ScrollerStarted => SetStateChain(m, Fling);
    case ScrollerComputed(lx, ly, cx, cy) => QuietChain(m.state, ScrollerComputeStep(m, lx, ly, cx, cy).notices);
    case ScrollerFinished(isAbort) =>
      if !m.tagConsume {
        SetStateChain(m, Idle);
      } else {
        QuietChain(m.state, []);
      }
  }

  /** setState notifies only real changes, and the onStateChanged calls of a
      run, in order, trace the state from its first value to its last. */
  lemma {:induction false} RunStateChain(m: Model, ins: seq<Input>)
    ensures StateChain(m.state, Run(m, ins).notices, Run(m, ins).model.state)
    decreases |ins|
  {
    if ins == [] {
    } else {
      var o := Apply(m, ins[0]);
      StepChain(m, ins[0]);
      RunStateChain(o.model, ins[1..]);
      StateChainAppend(m.state, o.notices, o.model.state, Run(o.model, ins[1..]).notices,
                       Run(o.model, ins[1..]).model.state);
    }
  }

  // ---------- the imperative manager ----------

  /** The manager's TagHolder: two flags and an optional listener. A setter
      stores the flag and reports whether it changed; the change hooks are
      the manager's (see GestureManager.SetTagIntercept and SetTagConsume). */
  class TagHolder {
    var tagIntercept: bool
    var tagConsume: bool
    var callback: Option<Listener>

    constructor ()
      ensures !tagIntercept && !tagConsume && callback == None
    {
      tagIntercept, tagConsume, callback := false, false, None;
    }

    method SetCallback(l: Option<Listener>)
      modifies this
      ensures callback == l && tagIntercept == old(tagIntercept) && tagConsume == old(tagConsume)
    {
      callback := l;
    }

    method SetTagIntercept(tag: bool) returns (changed: bool)
      modifies this
      ensures changed == (old(tagIntercept) != tag)
      ensures tagIntercept == tag && tagConsume == old(tagConsume) && callback == old(callback)
    {
      changed := tagIntercept != tag;
      if changed {
        tagIntercept := tag;
      }
    }

    method SetTagConsume(tag: bool) returns (changed: bool)
      modifies this
      ensures changed == (old(tagConsume) != tag)
      ensures tagConsume == tag && tagIntercept == old(tagIntercept) && callback == old(callback)
    {
      changed := tagConsume != tag;
      if changed {
        tagConsume := tag;
      }
    }
  }

  /** The manager. `log` records the calls made on the policy callback and
      on the tag listener, in order. */
  class GestureManager {
    const tags: TagHolder
    const callback: Callback
    var state: State
    var hasConsumeEvent: bool
    var isCancelTouchEvent: bool
    var trackerAcquired: bool
    ghost var log: seq<Notice>

    /** The manager's fields as a Model. */
    function Snapshot(): Model
      reads this, tags
    {
      Model(tags.tagIntercept, tags.tagConsume, tags.callback, state,
            hasConsumeEvent, isCancelTouchEvent, trackerAcquired)
    }

    constructor (callback: Callback)
      ensures Snapshot() == Initial && log == [] && this.callback == callback
      ensures fresh(tags)
    {
      this.callback := callback;
      tags := new TagHolder();
      state, hasConsumeEvent, isCancelTouchEvent, trackerAcquired := Idle, false, false, false;
      log := [];
    }

    /** The public constructor rejects a missing callback (a
        NullPointerException in the source): no manager is made. */
    static method Create(callback: Option<Callback>) returns (g: GestureManager?)
      ensures g == null <==> callback.None?
      ensures g != null ==>
        fresh(g) && fresh(g.tags) && g.callback == callback.value && g.Snapshot() == Initial && g.log == []
    {
      if callback.None? {
        g := null;
      } else {
        g := new GestureManager(callback.value);
      }
    }

    method SetState(s: State)
      modifies this
      ensures Snapshot() == SetStateStep(old(Snapshot()), s).model
      ensures log == old(log) + SetStateStep(old(Snapshot()), s).notices
    {
      var previous := state;
      if previous != s {
        state := s;
        log := log + [StateChanged(previous, s)];
      }
    }

    method SetTagIntercept(tag: bool)
      modifies this, tags
      ensures Snapshot() == SetTagInterceptStep(old(Snapshot()), tag).model
      ensures log == old(log) + SetTagInterceptStep(old(Snapshot()), tag).notices
    {
      var changed := tags.SetTagIntercept(tag);
      if changed {
        log := log + InterceptTagNotice(tags.callback, tag);
      }
    }

    /** The consume hook enters Drag when the tag becomes true, then the
        holder's own hook tells the listener. */
    method SetTagConsume(tag: bool)
      modifies this, tags
      ensures Snapshot() == SetTagConsumeStep(old(Snapshot()), tag).model
      ensures log == old(log) + SetTagConsumeStep(old(Snapshot()), tag).notices
    {
      var changed := tags.SetTagConsume(tag);
      if changed {
        if tag {
          SetState(Drag);
        }
        log := log + ConsumeTagNotice(tags.callback, tag);
      }
    }

    method ResetTags()
      modifies this, tags
      ensures Snapshot() == ResetTagsStep(old(Snapshot())).model
      ensures log == old(log) + ResetTagsStep(old(Snapshot())).notices
    {
      ghost var a := SetTagInterceptStep(Snapshot(), false);
      SetTagIntercept(false);
      ghost var half := log;
      ghost var b := SetTagConsumeStep(Snapshot(), false);
      SetTagConsume(false);
      assert log == old(log) + (a.notices + b.notices) by {
        assert log == half + b.notices && half == old(log) + a.notices;
      }
    }

    method SetCancelTouchEvent()
      modifies this, tags
      ensures Snapshot() == CancelStep(old(Snapshot())).model
      ensures log == old(log) + CancelStep(old(Snapshot())).notices
    {
      if tags.tagConsume || tags.tagIntercept {
        isCancelTouchEvent := true;
        ResetTags();
      }
    }

    method OnEventFinish(ev: MotionEvent)
      modifies this, tags
      ensures Snapshot() == FinishStep(old(Snapshot()), ev).model
      ensures log == old(log) + FinishStep(old(Snapshot()), ev).notices
    {
      ghost var r := ResetTagsStep(Snapshot());
      ResetTags();
      ghost var reset := log;
      log := log + [EventFinish(hasConsumeEvent, isCancelTouchEvent, ev)];
      hasConsumeEvent, isCancelTouchEvent, trackerAcquired := false, false, false;
      ghost var reported := log;
      ghost var s := if state == Drag then SetStateStep(Snapshot(), Idle) else Effect(Snapshot(), []);
      if state == Drag {
        SetState(Idle);
      }
      assert log == old(log) + (r.notices + [EventFinish(old(hasConsumeEvent), old(isCancelTouchEvent), ev)] + s.notices) by {
        assert log == reported + s.notices && reported == reset + [EventFinish(old(hasConsumeEvent), old(isCancelTouchEvent), ev)];
        assert reset == old(log) + r.notices;
      }
    }

    /** onInterceptTouchEvent; `intercept` is what shouldInterceptEvent
        answers if it is asked. */
    method OnInterceptTouchEvent(ev: MotionEvent, intercept: bool) returns (r: bool)
      modifies this, tags
      ensures Snapshot() == InterceptStep(old(Snapshot()), ev, intercept).model
      ensures r == InterceptStep(old(Snapshot()), ev, intercept).result
      ensures log == old(log) + InterceptStep(old(Snapshot()), ev, intercept).notices
    {
      trackerAcquired := true;
      if IsTerminal(ev.action) {
        OnEventFinish(ev);
      } else if !isCancelTouchEvent && !tags.tagIntercept {
        log := log + [AskIntercept(ev)];
        SetTagIntercept(intercept);
      }
      r := tags.tagIntercept && !isCancelTouchEvent;
    }

    /** onTouchEvent; `down` and `consume` are what onEventActionDown and
        shouldConsumeEvent answer if they are asked. */
    method OnTouchEvent(ev: MotionEvent, down: bool, consume: bool) returns (r: bool)
      modifies this, tags
      ensures Snapshot() == TouchStep(old(Snapshot()), ev, down, consume).model
      ensures r == TouchStep(old(Snapshot()), ev, down, consume).result
      ensures log == old(log) + TouchStep(old(Snapshot()), ev, down, consume).notices
    {
      trackerAcquired := true;
      if IsTerminal(ev.action) {
        OnEventFinish(ev);
      } else if ev.action.Down? {
        log := log + [AskActionDown(ev)];
        return down && !isCancelTouchEvent;
      } else if !isCancelTouchEvent {
        if !tags.tagConsume {
          log := log + [AskConsume(ev)];
          SetTagConsume(consume);
        } else {
          log := log + [EventConsume(ev)];
          hasConsumeEvent := true;
        }
      }
      r := tags.tagConsume && !isCancelTouchEvent;
    }

    method OnScrollerStart()
      modifies this
      ensures Snapshot() == ScrollerStartStep(old(Snapshot())).model
      ensures log == old(log) + ScrollerStartStep(old(Snapshot())).notices
    {
      SetState(Fling);
    }

    method OnScrollerCompute(lastX: int, lastY: int, currX: int, currY: int)
      modifies this
      ensures Snapshot() == ScrollerComputeStep(old(Snapshot()), lastX, lastY, currX, currY).model
      ensures log == old(log) + ScrollerComputeStep(old(Snapshot()), lastX, lastY, currX, currY).notices
    {
      log := log + [ScrollerCompute(lastX, lastY, currX, currY)];
    }

    method OnScrollerFinish(isAbort: bool)
      modifies this
      ensures Snapshot() == ScrollerFinishStep(old(Snapshot()), isAbort).model
      ensures log == old(log) + ScrollerFinishStep(old(Snapshot()), isAbort).notices
    {
      if !tags.tagConsume {
        SetState(Idle);
      }
    }
  }
}
