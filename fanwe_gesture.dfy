/** The `fanwe` gesture manager (com.fanwe.lib.gesture.FGestureManager): a
    tag-carrying touch helper whose tag setters are overridden to tell the
    policy callback of every store, an optional policy callback that falls
    back to a built-in DEFAULT declining everything, and a per-cycle "has
    consumed" flag.

    The pure part is the specification: a Model of the manager's fields, one
    step function per entry point, and Run over a sequence of inputs. The
    class GestureManager is the imperative manager, each method proved to
    perform its step function's effect. */
module FanweGesture {
  import opened Events
  import opened Touch
  import opened TagTouch

  /** A policy callback: the built-in DEFAULT or one set by the host. */
  datatype Callback = Default | User(id: nat)

  /** A call the manager makes on its policy callback. The answer of
      onConsumeEvent is recorded with the call; the other answers are the
      inputs of the step functions. */
  datatype Call =
    | ShouldIntercept(ev: MotionEvent)
    | TagInterceptChanged(tag: bool)
    | ConsumeDown(ev: MotionEvent)
    | ShouldConsume(ev: MotionEvent)
    | OnConsumeEvent(ev: MotionEvent, consumed: bool)
    | TagConsumeChanged(tag: bool)
    | ConsumeEventFinish(ev: MotionEvent)

  datatype Notice = Notice(to: Callback, call: Call)

  /** The manager's fields: the helper's two tags, the callback field (None
      until set or until DEFAULT is installed), the has-consumed flag, and
      whether a velocity tracker is held. */
  datatype Model = Model(
    tagIntercept: bool,
    tagConsume: bool,
    callback: Option<Callback>,
    hasConsumed: bool,
    trackerAcquired: bool)

  const Initial := Model(false, false, None, false, false)

  datatype Effect = Effect(model: Model, notices: seq<Notice>)

  datatype Outcome = Outcome(model: Model, result: bool, notices: seq<Notice>)

  /** The callback getCallback returns: the one set, else DEFAULT. */
  function Effective(m: Model): (c: Callback)
    ensures m.callback.Some? ==> c == m.callback.value
    ensures m.callback.None? ==> c == Default
  {
    if m.callback.Some? then m.callback.value else Default
  }

  /** What a callback answers when the host's own answer would be `a`:
      DEFAULT declines every decision. */
  function Answer(c: Callback, a: bool): (r: bool)
    ensures r <==> c.User? && a
  {
    if c.Default? then false else a
  }

  /** getCallback installs DEFAULT when no callback is set. */
  function WithCallback(m: Model): (m': Model)
    ensures m'.callback == Some(Effective(m))
    ensures m' == m.(callback := m'.callback)
  {
    m.(callback := Some(Effective(m)))
  }

  // ---------- the overridden tag setters ----------

  /** The helper stores the tag unconditionally, then the override tells the
      callback, whether or not the tag changed. */
  function SetTagInterceptStep(m: Model, tag: bool): (e: Effect)
    ensures e.model == m.(tagIntercept := tag, callback := Some(Effective(m)))
    ensures e.notices == [Notice(Effective(m), TagInterceptChanged(tag))]
  {
    Effect(WithCallback(m.(tagIntercept := tag)), [Notice(Effective(m), TagInterceptChanged(tag))])
  }

  function SetTagConsumeStep(m: Model, tag: bool): (e: Effect)
    ensures e.model == m.(tagConsume := tag, callback := Some(Effective(m)))
    ensures e.notices == [Notice(Effective(m), TagConsumeChanged(tag))]
  {
    Effect(WithCallback(m.(tagConsume := tag)), [Notice(Effective(m), TagConsumeChanged(tag))])
  }

  /** The notices of resetTag: both setters run, so both are reported. */
  function ResetNotices(c: Callback): seq<Notice> {
    [Notice(c, TagInterceptChanged(false)), Notice(c, TagConsumeChanged(false))]
  }

  function ResetTagStep(m: Model): (e: Effect)
    ensures e.model == m.(tagIntercept := false, tagConsume := false, callback := Some(Effective(m)))
    ensures e.notices == ResetNotices(Effective(m))
  {
    var a := SetTagInterceptStep(m, false);
    var b := SetTagConsumeStep(a.model, false);
    Effect(b.model, a.notices + b.notices)
  }

  /** The helper's processTouchEvent, as far as the tags go: an UP or CANCEL
      resets them through the overridden setters. */
  function ProcessStep(m: Model, ev: MotionEvent): (e: Effect)
    ensures IsTerminal(ev.action) ==> e == ResetTagStep(m)
    ensures !IsTerminal(ev.action) ==> e == Effect(m, [])
  {
    if IsTerminal(ev.action) then ResetTagStep(m) else Effect(m, [])
  }

  // ---------- entry points ----------

  /** onInterceptTouchEvent with `intercept` what the host's
      shouldInterceptTouchEvent would answer. */
  function InterceptStep(m: Model, ev: MotionEvent, intercept: bool): (o: Outcome)
    ensures m.tagIntercept ==> o == Outcome(m, true, [])
    ensures !m.tagIntercept && IsTerminal(ev.action) ==>
      o == Outcome(Model(false, false, Some(Effective(m)), false, false), false, ResetNotices(Effective(m)))
    ensures !m.tagIntercept && !IsTerminal(ev.action) ==>
      && o.result == Answer(Effective(m), intercept)
      && o.model == m.(tagIntercept := o.result, callback := Some(Effective(m)), trackerAcquired := true)
      && o.notices == [Notice(Effective(m), ShouldIntercept(ev))]
           + (if o.result then [Notice(Effective(m), TagInterceptChanged(true))] else [])
  {
    if m.tagIntercept then Outcome(m, true, [])
    else
      var p := ProcessStep(m, ev);
      var m1 := p.model.(trackerAcquired := true);
      if IsTerminal(ev.action) then
        Outcome(m1.(trackerAcquired := false, hasConsumed := false), false, p.notices)
      else
        var c := Effective(m1);
        var m2 := WithCallback(m1);
        var ask := [Notice(c, ShouldIntercept(ev))];
        if Answer(c, intercept) then
          var e := SetTagInterceptStep(m2, true);
          Outcome(e.model, true, p.notices + ask + e.notices)
        else
          Outcome(m2, false, p.notices + ask)
  }

  /** onTouchEvent with `down` what consumeDownEvent would answer and
      `consume` what shouldConsumeTouchEvent or onConsumeEvent, whichever is
      asked, would answer. */
  function TouchStep(m: Model, ev: MotionEvent, down: bool, consume: bool): (o: Outcome)
    ensures ev.action.Down? ==>
      o == Outcome(m.(callback := Some(Effective(m)), trackerAcquired := true),
                   Answer(Effective(m), down), [Notice(Effective(m), ConsumeDown(ev))])
    ensures !ev.action.Down? ==> o.result == o.model.tagConsume
    ensures IsTerminal(ev.action) ==>
      && o.model == Model(false, false, Some(Effective(m)), false, false)
      && o.notices == ResetNotices(Effective(m)) + [Notice(Effective(m), ConsumeEventFinish(ev))]
    ensures Continuing(ev.action) && m.tagConsume ==>
      && o.model == m.(tagConsume := Answer(Effective(m), consume),
                       hasConsumed := m.hasConsumed || Answer(Effective(m), consume),
                       callback := Some(Effective(m)), trackerAcquired := true)
      && o.notices == [Notice(Effective(m), OnConsumeEvent(ev, Answer(Effective(m), consume))),
                       Notice(Effective(m), TagConsumeChanged(Answer(Effective(m), consume)))]
    ensures Continuing(ev.action) && !m.tagConsume ==>
      && o.model == m.(tagConsume := Answer(Effective(m), consume),
                       callback := Some(Effective(m)), trackerAcquired := true)
      && o.notices == [Notice(Effective(m), ShouldConsume(ev)),
                       Notice(Effective(m), TagConsumeChanged(Answer(Effective(m), consume)))]
  {
    var p := ProcessStep(m, ev);
    var d := TouchDispatch(WithCallback(p.model.(trackerAcquired := true)), ev, down, consume);
    Outcome(d.model, d.result, p.notices + d.notices)
  }

  /** The switch of onTouchEvent, after the helper has seen the event and
      the tracker has been fed. */
  function TouchDispatch(m: Model, ev: MotionEvent, down: bool, consume: bool): Outcome {
    var c := Effective(m);
    if ev.action.Down? then
      Outcome(m, Answer(c, down), [Notice(c, ConsumeDown(ev))])
    else if IsTerminal(ev.action) then
      var m1 := m.(trackerAcquired := false, hasConsumed := false);
      Outcome(m1, m1.tagConsume, [Notice(c, ConsumeEventFinish(ev))])
    else if m.tagConsume then
      var a := Answer(c, consume);
      var e := SetTagConsumeStep(m, a);
      var m1 := e.model.(hasConsumed := e.model.hasConsumed || a);
      Outcome(m1, m1.tagConsume, [Notice(c, OnConsumeEvent(ev, a))] + e.notices)
    else
      var a := Answer(c, consume);
      var e := SetTagConsumeStep(m, a);
      Outcome(e.model, e.model.tagConsume, [Notice(c, ShouldConsume(ev))] + e.notices)
  }

  /** A MOVE or any other action that neither starts nor ends the cycle. */
  predicate Continuing(a: Action) {
    !IsTerminal(a) && !a.Down?
  }

  // ---------- runs ----------

  datatype Input =
    | Intercept(ev: MotionEvent, intercept: bool)
    | Touch(ev: MotionEvent, down: bool, consume: bool)
    | SetCallback(callback: Option<Callback>)

  /** An input that ends the cycle (it reaches the helper). */
  predicate Ends(i: Input) {
    (i.Intercept? || i.Touch?) && IsTerminal(i.ev.action)
  }

  function Apply(m: Model, i: Input): Outcome {
    match i
    case Intercept(ev, intercept) => InterceptStep(m, ev, intercept)
    case Touch(ev, down, consume) => TouchStep(m, ev, down, consume)
    case SetCallback(c) => Outcome(m.(callback := c), false, [])
  }

  datatype Trace = Trace(model: Model, results: seq<bool>, notices: seq<Notice>)

  function Run(m: Model, ins: seq<Input>): (t: Trace)
    ensures |t.results| == |ins|
    decreases |ins|
  {
    if ins == [] then Trace(m, [], [])
    else
      var o := Apply(m, ins[0]);
      var rest := Run(o.model, ins[1..]);
      Trace(rest.model, [o.result] + rest.results, o.notices + rest.notices)
  }

  /** A model whose callback is DEFAULT, or none yet. */
  predicate UsesDefault(m: Model) {
    m.callback != None ==> m.callback == Some(Default)
  }

  /** One input under DEFAULT, from a model holding no tag and nothing
      consumed: the call declines and nothing becomes set. */
  lemma DefaultStep(m: Model, i: Input)
    requires UsesDefault(m) && !m.tagIntercept && !m.tagConsume && !m.hasConsumed
    requires !i.SetCallback?
    ensures !Apply(m, i).result
    ensures UsesDefault(Apply(m, i).model)
    ensures !Apply(m, i).model.tagIntercept && !Apply(m, i).model.tagConsume && !Apply(m, i).model.hasConsumed
  {
    assert Effective(m) == Default;
  }

  /** With no callback set, DEFAULT declines interception, the press, and
      every consume decision, so no call into the manager ever returns true
      and nothing is ever consumed. */
  lemma {:induction false} DefaultNeverConsumes(m: Model, ins: seq<Input>)
    requires UsesDefault(m) && !m.tagIntercept && !m.tagConsume && !m.hasConsumed
    requires forall k :: 0 <= k < |ins| ==> !ins[k].SetCallback?
    ensures forall k :: 0 <= k < |ins| ==> !Run(m, ins).results[k]
    ensures !Run(m, ins).model.hasConsumed && !Run(m, ins).model.tagConsume
    decreases |ins|
  {
    if ins != [] {
      var o := Apply(m, ins[0]);
      DefaultStep(m, ins[0]);
      assert forall k :: 0 <= k < |ins[1..]| ==> ins[1..][k] == ins[k + 1];
      DefaultNeverConsumes(o.model, ins[1..]);
      var rest := Run(o.model, ins[1..]);
      var t := Run(m, ins);
      assert t.results == [o.result] + rest.results;
      forall k | 0 <= k < |ins|
        ensures !t.results[k]
      {
        if k > 0 {
          assert t.results[k] == rest.results[k - 1];
        }
      }
    }
  }

  /** While the intercept tag is set, a run made only of interception calls,
      UP and CANCEL included, is absorbed: each call returns true, and the
      manager neither changes nor calls anything. */
  lemma {:induction false} InterceptLatch(m: Model, ins: seq<Input>)
    requires m.tagIntercept
    requires forall k :: 0 <= k < |ins| ==> ins[k].Intercept?
    ensures Run(m, ins).model == m && Run(m, ins).notices == []
    ensures forall k :: 0 <= k < |ins| ==> Run(m, ins).results[k]
    decreases |ins|
  {
    if ins != [] {
      assert forall k :: 0 <= k < |ins[1..]| ==> ins[1..][k] == ins[k + 1];
      InterceptLatch(m, ins[1..]);
      var rest := Run(m, ins[1..]);
      var t := Run(m, ins);
      assert t == Trace(rest.model, [true] + rest.results, [] + rest.notices);
      forall k | 0 <= k < |ins|
        ensures t.results[k]
      {
        if k > 0 {
          assert t.results[k] == rest.results[k - 1];
        }
      }
    }
  }

  /** No shouldInterceptTouchEvent call among `ns`. */
  predicate NoAskIntercept(ns: seq<Notice>) {
    forall k :: 0 <= k < |ns| ==> !ns[k].call.ShouldIntercept?
  }

  lemma NoAskInterceptAppend(a: seq<Notice>, b: seq<Notice>)
    requires NoAskIntercept(a) && NoAskIntercept(b)
    ensures NoAskIntercept(a + b)
  {
    forall k | 0 <= k < |a + b|
      ensures !(a + b)[k].call.ShouldIntercept?
    {
      if k >= |a| {
        assert (a + b)[k] == b[k - |a|];
      }
    }
  }

  /** Every interception call among `ins` returned true in `rs`. */
  predicate InterceptsAnswered(ins: seq<Input>, rs: seq<bool>) {
    |rs| == |ins| && forall k :: 0 <= k < |ins| && ins[k].Intercept? ==> rs[k]
  }

  lemma InterceptsAnsweredCons(i: Input, r: bool, ins: seq<Input>, rs: seq<bool>)
    requires i.Intercept? ==> r
    requires InterceptsAnswered(ins, rs)
    ensures InterceptsAnswered([i] + ins, [r] + rs)
  {
    forall k | 0 <= k < |[i] + ins| && ([i] + ins)[k].Intercept?
      ensures ([r] + rs)[k]
    {
      if k > 0 {
        assert ([i] + ins)[k] == ins[k - 1];
        assert ([r] + rs)[k] == rs[k - 1];
      }
    }
  }

  /** One input that does not end the cycle keeps a set intercept tag and
      never asks shouldInterceptTouchEvent; an interception call answers true
      and has no effect. */
  lemma InterceptedStep(m: Model, i: Input)
    requires m.tagIntercept && !Ends(i)
    ensures Apply(m, i).model.tagIntercept
    ensures i.Intercept? ==> Apply(m, i).result && Apply(m, i).model == m && Apply(m, i).notices == []
    ensures NoAskIntercept(Apply(m, i).notices)
  {
    match i
    case Intercept(ev, intercept) =>
    case Touch(ev, down, consume) =>
    case SetCallback(c) =>
  }

  /** Once the intercept tag is set, it stays set until an UP or CANCEL
      reaches the helper: touch events and callback changes keep it, every
      interception call returns true, and shouldInterceptTouchEvent is never
      asked again. */
  lemma {:induction false} InterceptionHolds(m: Model, ins: seq<Input>)
    requires m.tagIntercept
    requires forall k :: 0 <= k < |ins| ==> !Ends(ins[k])
    ensures Run(m, ins).model.tagIntercept
    ensures InterceptsAnswered(ins, Run(m, ins).results)
    ensures NoAskIntercept(Run(m, ins).notices)
    decreases |ins|
  {
    if ins != [] {
      var o := Apply(m, ins[0]);
      InterceptedStep(m, ins[0]);
      var rest := Run(o.model, ins[1..]);
      assert forall k :: 0 <= k < |ins[1..]| ==> ins[1..][k] == ins[k + 1];
      InterceptionHolds(o.model, ins[1..]);
      InterceptsAnsweredCons(ins[0], o.result, ins[1..], rest.results);
      assert [ins[0]] + ins[1..] == ins;
      NoAskInterceptAppend(o.notices, rest.notices);
    }
  }

  /** Some onConsumeEvent call in `ns` answered true. */
  predicate ConsumedIn(ns: seq<Notice>) {
    exists k :: 0 <= k < |ns| && ns[k].call.OnConsumeEvent? && ns[k].call.consumed
  }

  lemma ConsumedInAppend(a: seq<Notice>, b: seq<Notice>)
    ensures ConsumedIn(a + b) <==> ConsumedIn(a) || ConsumedIn(b)
  {
    if ConsumedIn(a + b) {
      var k :| 0 <= k < |a + b| && (a + b)[k].call.OnConsumeEvent? && (a + b)[k].call.consumed;
      if k >= |a| {
        assert b[k - |a|] == (a + b)[k];
      }
    }
    if ConsumedIn(a) {
      var k :| 0 <= k < |a| && a[k].call.OnConsumeEvent? && a[k].call.consumed;
      assert (a + b)[k] == a[k];
    }
    if ConsumedIn(b) {
      var k :| 0 <= k < |b| && b[k].call.OnConsumeEvent? && b[k].call.consumed;
      assert (a + b)[|a| + k] == b[k];
    }
  }

  lemma ConsumedStep(m: Model, i: Input)
    requires !Ends(i)
    ensures Apply(m, i).model.hasConsumed == (m.hasConsumed || ConsumedIn(Apply(m, i).notices))
  {
    var o := Apply(m, i);
    match i
    case Intercept(ev, intercept) =>
    case Touch(ev, down, consume) =>
      if Continuing(ev.action) && m.tagConsume && Answer(Effective(m), consume) {
        assert o.notices[0].call.OnConsumeEvent? && o.notices[0].call.consumed;
      }
    case SetCallback(c) =>
  }

  /** Within a cycle, hasConsumed becomes true exactly when some
      onConsumeEvent call answers true. */
  lemma {:induction false} ConsumedIffOnConsumeTrue(m: Model, ins: seq<Input>)
    requires forall k :: 0 <= k < |ins| ==> !Ends(ins[k])
    ensures Run(m, ins).model.hasConsumed == (m.hasConsumed || ConsumedIn(Run(m, ins).notices))
    decreases |ins|
  {
    if ins != [] {
      var o := Apply(m, ins[0]);
      ConsumedStep(m, ins[0]);
      assert forall k :: 0 <= k < |ins[1..]| ==> ins[1..][k] == ins[k + 1];
      ConsumedIffOnConsumeTrue(o.model, ins[1..]);
      var rest := Run(o.model, ins[1..]);
      assert Run(m, ins).notices == o.notices + rest.notices;
      ConsumedInAppend(o.notices, rest.notices);
    }
  }

  // ---------- the imperative manager ----------

  /** The manager. `log` records the calls made on the policy callback. */
  class GestureManager {
    const helper: TagTouchHelper
    var callback: Option<Callback>
    var hasConsumed: bool
    var trackerAcquired: bool
    ghost var log: seq<Notice>

    function Snapshot(): Model
      reads this, helper
    {
      Model(helper.tagIntercept, helper.tagConsume, callback, hasConsumed, trackerAcquired)
    }

    constructor ()
      ensures Snapshot() == Initial && log == []
      ensures fresh(helper) && fresh(helper.touch)
    {
      helper := new TagTouchHelper();
      callback, hasConsumed, trackerAcquired := None, false, false;
      log := [];
    }

    method SetCallback(c: Option<Callback>)
      modifies this
      ensures Snapshot() == old(Snapshot()).(callback := c) && log == old(log)
    {
      callback := c;
    }

    method GetCallback() returns (c: Callback)
      modifies this
      ensures c == Effective(old(Snapshot()))
      ensures Snapshot() == WithCallback(old(Snapshot())) && log == old(log)
    {
      if callback.None? {
        callback := Some(Default);
      }
      c := callback.value;
    }

    method SetTagIntercept(tag: bool)
      modifies this, helper
      ensures Snapshot() == SetTagInterceptStep(old(Snapshot()), tag).model
      ensures log == old(log) + SetTagInterceptStep(old(Snapshot()), tag).notices
      ensures unchanged(helper.touch)
    {
      helper.SetTagIntercept(tag);
      var c := GetCallback();
      log := log + [Notice(c, TagInterceptChanged(tag))];
    }

    method SetTagConsume(tag: bool)
      modifies this, helper
      ensures Snapshot() == SetTagConsumeStep(old(Snapshot()), tag).model
      ensures log == old(log) + SetTagConsumeStep(old(Snapshot()), tag).notices
      ensures unchanged(helper.touch)
    {
      helper.SetTagConsume(tag);
      var c := GetCallback();
      log := log + [Notice(c, TagConsumeChanged(tag))];
    }

    /** The helper's processTouchEvent: the tracker update, then on UP or
        CANCEL the reset through the overridden setters. */
    method ProcessTouchEvent(ev: MotionEvent)
      modifies this, helper, helper.touch
      ensures helper.touch.History() == Record(old(helper.touch.History()), ev)
      ensures Snapshot() == ProcessStep(old(Snapshot()), ev).model
      ensures log == old(log) + ProcessStep(old(Snapshot()), ev).notices
    {
      helper.touch.ProcessTouchEvent(ev);
      if IsTerminal(ev.action) {
        SetTagIntercept(false);
        SetTagConsume(false);
      }
    }

    /** onInterceptTouchEvent; `intercept` is what shouldInterceptTouchEvent
        answers if it is asked. A set intercept tag short-circuits before
        the helper sees the event. */
    method OnInterceptTouchEvent(ev: MotionEvent, intercept: bool) returns (r: bool)
      modifies this, helper, helper.touch
      ensures old(helper.tagIntercept) ==> unchanged(helper.touch)
      ensures !old(helper.tagIntercept) ==> helper.touch.History() == Record(old(helper.touch.History()), ev)
      ensures Snapshot() == InterceptStep(old(Snapshot()), ev, intercept).model
      ensures r == InterceptStep(old(Snapshot()), ev, intercept).result
      ensures log == old(log) + InterceptStep(old(Snapshot()), ev, intercept).notices
    {
      if helper.tagIntercept {
        return true;
      }
      ProcessTouchEvent(ev);
      trackerAcquired := true;
      if IsTerminal(ev.action) {
        trackerAcquired := false;
        hasConsumed := false;
        r := false;
      } else {
        var c := GetCallback();
        log := log + [Notice(c, ShouldIntercept(ev))];
        if Answer(c, intercept) {
          SetTagIntercept(true);
          r := true;
        } else {
          r := false;
        }
      }
    }

    /** onTouchEvent; `down` and `consume` are what consumeDownEvent and
        shouldConsumeTouchEvent or onConsumeEvent answer if asked. */
    method OnTouchEvent(ev: MotionEvent, down: bool, consume: bool) returns (r: bool)
      modifies this, helper, helper.touch
      ensures helper.touch.History() == Record(old(helper.touch.History()), ev)
      ensures Snapshot() == TouchStep(old(Snapshot()), ev, down, consume).model
      ensures r == TouchStep(old(Snapshot()), ev, down, consume).result
      ensures log == old(log) + TouchStep(old(Snapshot()), ev, down, consume).notices
    {
      ghost var p := ProcessStep(Snapshot(), ev);
      ProcessTouchEvent(ev);
      ghost var processed := log;
      trackerAcquired := true;
      var c := GetCallback();
      ghost var d := TouchDispatch(Snapshot(), ev, down, consume);
      r := Dispatch(ev, c, down, consume);
      assert log == old(log) + (p.notices + d.notices) by {
        assert log == processed + d.notices && processed == old(log) + p.notices;
      }
    }

    /** The switch of onTouchEvent; `c` is the callback just fetched. */
    method Dispatch(ev: MotionEvent, c: Callback, down: bool, consume: bool) returns (r: bool)
      requires callback == Some(c)
      modifies this, helper
      ensures unchanged(helper.touch)
      ensures Snapshot() == TouchDispatch(old(Snapshot()), ev, down, consume).model
      ensures r == TouchDispatch(old(Snapshot()), ev, down, consume).result
      ensures log == old(log) + TouchDispatch(old(Snapshot()), ev, down, consume).notices
    {
      if ev.action.Down? {
        log := log + [Notice(c, ConsumeDown(ev))];
        return Answer(c, down);
      } else if IsTerminal(ev.action) {
        log := log + [Notice(c, ConsumeEventFinish(ev))];
        trackerAcquired := false;
        hasConsumed := false;
      } else {
        var a := Answer(c, consume);
        if helper.tagConsume {
          log := log + [Notice(c, OnConsumeEvent(ev, a))];
          SetTagConsume(a);
          if a {
            hasConsumed := true;
          }
        } else {
          log := log + [Notice(c, ShouldConsume(ev))];
          SetTagConsume(a);
        }
      }
      r := helper.tagConsume;
    }
  }
}
