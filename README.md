# Gesture library model

This project models the library part of the `gesture` repository. That library is a kit that helps Android drag containers arbitrate touch events and settle scrolls. The model covers its parts in these files:

- **Pointer tracker** (`touch_helper.dfy`, FTouchHelper). The current and previous positions shift on each event, and the last DOWN, MOVE, UP and CANCEL positions are recorded. It also holds:
  - the deltas and direction tests against the last press or the previous event;
  - the integer clamp `getLegalDelta`;
  - half-open hit testing, and the pick of the topmost child under a point;
  - the alignment arithmetic.
- **Tagging tracker** (`tag_touch_helper.dfy`, FTagTouchHelper). It adds the intercept and consume tags to the tracker. The tags are stored with no change detection and cleared on UP and CANCEL.
- **Tag holders** (`fanwe_tag_holder.dfy`, `sd_tag_holder.dfy`). These are the two copies of FTagHolder, one per package. Each tag notifies only on a real change: first the protected hook, then the registered listener if there is one.
- **Scroller wrapper** (`scroller.dfy`, FScroller). It covers:
  - acceptance of scroll and fling requests;
  - the default duration heuristic, for a distance the caller supplies as the length of the displacement;
  - the last reported position and the finished state;
  - the scroll hook and the state hook.

  The platform scroller is an object whose finished flag and current position change arbitrarily.
- **The two gesture managers** (`fanwe_gesture.dfy`, `sd_gesture.dfy`). Each is written twice:
  - **As a specification.** A `Model` datatype of the manager's fields, with one step function per entry point. Each step function returns the new model, the call's result and the calls the manager makes on its policy callback and listeners (the *notices*, all in order). `Run` folds a sequence of inputs.
  - **As an imperative class.** Each method is proved to have exactly its step function's effect on the fields. It appends the step's notices to a ghost log.

  The properties of whole press-to-release cycles are lemmas over `Run`:
  - monotone interception;
  - a cancelled cycle stays silent;
  - the has-consumed flag matches the consume notifications;
  - what the end of a cycle reports;
  - the state changes chain together;
  - the DEFAULT callback never consumes.
- **Saved view position** (`view_position.dfy`, FViewPosition). It saves a view's top-left corner, resets it, and lays a view back there at the same size.

`events.dfy` holds the shared event types. `views.dfy` holds the part of a platform view the library reads and writes.

Policy callbacks are modelled as inputs. Each entry point takes, as a parameter, the boolean answer the host's callback would give if it were asked. Whether it is in fact asked, and with what, is part of the proved notices.

Source paths below are relative to the repository root.

## Model

| member | source | states |
|---|---|---|
| Events.Receivers | lib/src/main/java/com/fanwe/lib/gesture/tag/FTagHolder.java:59-60 | one change reaches the hook first, then the listener only when one is registered |
| Touch.Record | lib/src/main/java/com/fanwe/lib/gesture/FTouchHelper.java:69-97 | last becomes the old current and current becomes the event position; only the sample named by the action is overwritten, and every other action's sample is kept |
| Touch.TouchHelper.constructor | lib/src/main/java/com/fanwe/lib/gesture/FTouchHelper.java:42-57 | every sample starts at the origin |
| Touch.TouchHelper.ProcessTouchEvent | lib/src/main/java/com/fanwe/lib/gesture/FTouchHelper.java:69-97 | the samples become Record of the old samples; the LAST delta is the event minus the old current; the DOWN delta is 0 after a DOWN and the event minus the old down position otherwise |
| Touch.TouchHelper.DeltaXFrom | lib/src/main/java/com/fanwe/lib/gesture/FTouchHelper.java:172-183 | no contract of its own: Touch.DeltaReferences proves current minus down for EVENT_DOWN, current minus last for EVENT_LAST, and 0 for any other code |
| Touch.TouchHelper.DeltaYFrom | lib/src/main/java/com/fanwe/lib/gesture/FTouchHelper.java:191-202 | no contract of its own: Touch.DeltaReferences proves the same three cases on the y axis |
| Touch.TouchHelper.IsMoveLeftFrom | lib/src/main/java/com/fanwe/lib/gesture/FTouchHelper.java:272-275 | no contract of its own: Touch.DirectionsBySign proves it holds exactly for a negative x delta and never together with IsMoveRightFrom |
| Touch.TouchHelper.IsMoveTopFrom | lib/src/main/java/com/fanwe/lib/gesture/FTouchHelper.java:283-286 | no contract of its own: Touch.DirectionsBySign proves it holds exactly for a negative y delta and never together with IsMoveBottomFrom |
| Touch.TouchHelper.IsMoveRightFrom | lib/src/main/java/com/fanwe/lib/gesture/FTouchHelper.java:294-297 | no contract of its own: Touch.DirectionsBySign proves it holds exactly for a positive x delta |
| Touch.TouchHelper.IsMoveBottomFrom | lib/src/main/java/com/fanwe/lib/gesture/FTouchHelper.java:305-308 | no contract of its own: Touch.DirectionsBySign proves it holds exactly for a positive y delta |
| Touch.DeltaReferences | lib/src/main/java/com/fanwe/lib/gesture/FTouchHelper.java:172-208 | EVENT_DOWN measures current minus down, EVENT_LAST current minus last, and any other code gives 0, on both axes |
| Touch.DirectionsBySign | lib/src/main/java/com/fanwe/lib/gesture/FTouchHelper.java:272-308 | left/right hold exactly for a negative/positive x delta, top/bottom likewise on y; opposite directions exclude each other and a zero delta is neither |
| Touch.LegalDelta | lib/src/main/java/com/fanwe/lib/gesture/FTouchHelper.java:321-334 | a zero delta gives 0; otherwise current plus the result is min, max or current plus delta as the target falls below, above or inside the bounds, so it lies in [min, max] when min ≤ max, and an in-bounds delta is returned unchanged |
| Touch.IsViewUnder | lib/src/main/java/com/fanwe/lib/gesture/FTouchHelper.java:359-363 | no contract of its own: Touch.HalfOpenFrames proves the containment is half-open, and Touch.FindTopChildUnder is specified by it |
| Touch.HalfOpenFrames | lib/src/main/java/com/fanwe/lib/gesture/FTouchHelper.java:359-363 | containment is half-open: two frames that share an edge never both contain a point |
| Touch.FindTopChildUnder | lib/src/main/java/com/fanwe/lib/gesture/FTouchHelper.java:389-401 | null exactly when no child contains the point; otherwise a child that contains it, with no later child in drawing order containing it |
| Touch.MarginsOf | lib/src/main/java/com/fanwe/lib/gesture/FTouchHelper.java:406-409 | no contract of its own: the margins of margin layout parameters when `margin` is asked for, else none; Touch.AlignedEdges uses it on every edge |
| Touch.LeftAlignParentLeft | lib/src/main/java/com/fanwe/lib/gesture/FTouchHelper.java:403-411 | no contract of its own: Touch.AlignedEdges proves the child's left edge, less its margin, lands on the parent's left padding |
| Touch.LeftAlignParentRight | lib/src/main/java/com/fanwe/lib/gesture/FTouchHelper.java:413-421 | no contract of its own: Touch.AlignedEdges proves the child's right edge plus its margin lands on the parent's width less its right padding |
| Touch.TopAlignParentTop | lib/src/main/java/com/fanwe/lib/gesture/FTouchHelper.java:423-431 | no contract of its own: Touch.AlignedEdges proves the child's top edge, less its margin, lands on the parent's top padding |
| Touch.TopAlignParentBottomAsWritten | lib/src/main/java/com/fanwe/lib/gesture/FTouchHelper.java:433-441 | no contract of its own: the position as the source computes it, with the top padding; Touch.TopAlignParentBottomAsWrittenMisaligns proves where it goes wrong |
| Touch.TopAlignParentBottom | lib/src/main/java/com/fanwe/lib/gesture/FTouchHelper.java:433-441 | no contract of its own: the corrected position, with the bottom padding; Touch.AlignedEdges proves the child's bottom edge plus its margin lands on the parent's height less its bottom padding |
| Touch.AlignedEdges | lib/src/main/java/com/fanwe/lib/gesture/FTouchHelper.java:403-431 | each aligned position puts the child's edge plus its margin on the parent's padded edge; the left and right alignments are ordered exactly when the child fits |
| Touch.TopAlignParentBottomAsWrittenMisaligns | lib/src/main/java/com/fanwe/lib/gesture/FTouchHelper.java:433-441 | the as-written bottom alignment misses the padded bottom edge by the difference of the two vertical paddings, and differs from the intended one whenever they differ |
| TagTouch.TagTouchHelper.constructor | lib/src/main/java/com/fanwe/lib/gesture/FTagTouchHelper.java:28-32 | both tags start false |
| TagTouch.TagTouchHelper.ProcessTouchEvent | lib/src/main/java/com/fanwe/lib/gesture/FTagTouchHelper.java:35-48 | the tracker update comes first; UP and CANCEL clear both tags, and any other action keeps them |
| TagTouch.TagTouchHelper.ResetTag | lib/src/main/java/com/fanwe/lib/gesture/FTagTouchHelper.java:53-57 | both tags end false, whatever they were, so a second reset is the same |
| TagTouch.TagTouchHelper.SetTagIntercept | lib/src/main/java/com/fanwe/lib/gesture/FTagTouchHelper.java:64-67 | stores the argument unconditionally and keeps the other tag |
| TagTouch.TagTouchHelper.SetTagConsume | lib/src/main/java/com/fanwe/lib/gesture/FTagTouchHelper.java:84-87 | stores the argument unconditionally and keeps the other tag |
| FanweTags.Notify | lib/src/main/java/com/fanwe/lib/gesture/tag/FTagHolder.java:59-60 | one notice per receiver, in receiver order, each carrying the change |
| FanweTags.TagHolder.constructor | lib/src/main/java/com/fanwe/lib/gesture/tag/FTagHolder.java:23-29 | both flags false, no listener, nothing notified |
| FanweTags.TagHolder.SetCallback | lib/src/main/java/com/fanwe/lib/gesture/tag/FTagHolder.java:32-35 | only the listener changes |
| FanweTags.TagHolder.SetTagIntercept | lib/src/main/java/com/fanwe/lib/gesture/tag/FTagHolder.java:54-62 | the flag becomes the argument and the other flag is kept; an equal value notifies nothing, and a change notifies the hook and the listener once each with the new value |
| FanweTags.TagHolder.SetTagConsume | lib/src/main/java/com/fanwe/lib/gesture/tag/FTagHolder.java:69-77 | the same edge-only behaviour for the consume flag |
| FanweTags.TagHolder.Reset | lib/src/main/java/com/fanwe/lib/gesture/tag/FTagHolder.java:82-86 | both flags end false; only a flag that was set notifies, intercept first, so resetting cleared flags notifies nothing |
| SdTags.TagHolder.constructor | lib/src/main/java/com/sd/lib/gesture/tag/FTagHolder.java:8-14 | both flags false, no listener, nothing notified |
| SdTags.TagHolder.SetCallback | lib/src/main/java/com/sd/lib/gesture/tag/FTagHolder.java:17-20 | only the listener changes |
| SdTags.TagHolder.SetTagIntercept | lib/src/main/java/com/sd/lib/gesture/tag/FTagHolder.java:39-48 | edge-only store; with no listener only the hook hears of the change |
| SdTags.TagHolder.SetTagConsume | lib/src/main/java/com/sd/lib/gesture/tag/FTagHolder.java:55-64 | edge-only store of the consume flag |
| SdTags.TagHolder.Reset | lib/src/main/java/com/sd/lib/gesture/tag/FTagHolder.java:69-73 | both flags false, notices only for flags that were set, none on a second reset |
| Scrolling.Trunc | lib/src/main/java/com/fanwe/lib/gesture/FScroller.java:296 | the cast truncates toward zero: the floor for non-negative values, the ceiling for negative ones, so always within 1 of its argument |
| Scrolling.ComputeDuration | lib/src/main/java/com/fanwe/lib/gesture/FScroller.java:286-298 | for a distance that is the length of (dx, dy): a zero maximum distance gives the minimum duration, and otherwise the result never exceeds the maximum duration |
| Scrolling.LengthFacts | lib/src/main/java/com/fanwe/lib/gesture/FScroller.java:294 | a length of (dx, dy) is 0 exactly for the zero displacement, and on a single axis it is the absolute value of that axis's delta |
| Scrolling.ZeroDisplacementDuration | lib/src/main/java/com/fanwe/lib/gesture/FScroller.java:288-297 | the zero displacement has length 0 and, with a maximum distance set, takes the smaller of the minimum and the maximum duration |
| Scrolling.DurationGrowsWithDistance | lib/src/main/java/com/fanwe/lib/gesture/FScroller.java:286-298 | with a maximum distance set and 0 ≤ min ≤ max durations, the result lies between them, so it is never negative, and never shrinks as the distance grows |
| Scrolling.ScaledMonotone | lib/src/main/java/com/fanwe/lib/gesture/FScroller.java:295-296 | the uncapped duration is at least the minimum duration and grows with the percentage |
| Scrolling.SingleAxisFling | lib/src/main/java/com/fanwe/lib/gesture/FScroller.java:168-176 | flingX is accepted exactly when min < start < max with a non-zero velocity, because its y clause can never hold; flingY likewise |
| Scrolling.FlingAtBoundRejected | lib/src/main/java/com/fanwe/lib/gesture/FScroller.java:183-184 | a start on a bound never qualifies its axis |
| Scrolling.FlingAccepted | lib/src/main/java/com/fanwe/lib/gesture/FScroller.java:183-184 | no contract of its own: the acceptance condition of fling; Scrolling.SingleAxisFling and Scrolling.FlingAtBoundRejected are proved about it and Scrolling.FScroller.Fling is accepted exactly on it |
| Scrolling.Deliver | lib/src/main/java/com/fanwe/lib/gesture/FScroller.java:222-223 | the hook, then the listener if any, each receives the event |
| Scrolling.FinishedNotices | lib/src/main/java/com/fanwe/lib/gesture/FScroller.java:243-253 | no contract of its own: nothing when the flag keeps its value, else the state change delivered to the hook and the listener; Scrolling.FScroller.UpdateFinished is specified by it |
| Scrolling.PlatformScroller.StartScroll | lib/src/main/java/com/fanwe/lib/gesture/FScroller.java:162 | records the request; the flag and position may change arbitrarily |
| Scrolling.PlatformScroller.Fling | lib/src/main/java/com/fanwe/lib/gesture/FScroller.java:188 | records the request |
| Scrolling.PlatformScroller.ComputeScrollOffset | lib/src/main/java/com/fanwe/lib/gesture/FScroller.java:213 | records the query and its answer |
| Scrolling.PlatformScroller.AbortAnimation | lib/src/main/java/com/fanwe/lib/gesture/FScroller.java:239 | records the request |
| Scrolling.FScroller.constructor | lib/src/main/java/com/fanwe/lib/gesture/FScroller.java:29-57 | finished, maximum duration 600, minimum duration 256, maximum distance 0, last position at the origin, no listener |
| Scrolling.FScroller.Create | lib/src/main/java/com/fanwe/lib/gesture/FScroller.java:45-52 | a null scroller gives no wrapper; otherwise a fresh wrapper with the defaults |
| Scrolling.FScroller.SetCallback | lib/src/main/java/com/fanwe/lib/gesture/FScroller.java:59-62 | only the listener changes |
| Scrolling.FScroller.SetMaxScrollDistance | lib/src/main/java/com/fanwe/lib/gesture/FScroller.java:83-86 | stores the setting |
| Scrolling.FScroller.SetMaxScrollDuration | lib/src/main/java/com/fanwe/lib/gesture/FScroller.java:93-96 | stores the setting |
| Scrolling.FScroller.SetMinScrollDuration | lib/src/main/java/com/fanwe/lib/gesture/FScroller.java:103-106 | stores the setting |
| Scrolling.FScroller.GetDuration | lib/src/main/java/com/fanwe/lib/gesture/FScroller.java:201-204 | computeDuration under the current settings; with a maximum distance set and 0 ≤ min ≤ max durations, the result lies between the two durations |
| Scrolling.FScroller.ScrollDelta | lib/src/main/java/com/fanwe/lib/gesture/FScroller.java:148-166 | for a distance that is the length of (dx, dy), accepted exactly when dx or dy is non-zero. A rejection changes nothing, in the wrapper or in the platform scroller. An acceptance sets the last position to the start, issues one startScroll with the caller's duration (or getDuration(dx, dy) when it is negative), copies the finished flag and notifies only when it flipped |
| Scrolling.FScroller.ScrollTo | lib/src/main/java/com/fanwe/lib/gesture/FScroller.java:119-125 | a scrollDelta by end minus start |
| Scrolling.FScroller.ScrollToX | lib/src/main/java/com/fanwe/lib/gesture/FScroller.java:109-112 | a scrollDelta by endX minus startX with the y axis fixed at 0 |
| Scrolling.FScroller.ScrollToY | lib/src/main/java/com/fanwe/lib/gesture/FScroller.java:114-117 | the same on the y axis |
| Scrolling.FScroller.ScrollDeltaX | lib/src/main/java/com/fanwe/lib/gesture/FScroller.java:128-131 | a scrollDelta with the y axis fixed at 0 |
| Scrolling.FScroller.ScrollDeltaY | lib/src/main/java/com/fanwe/lib/gesture/FScroller.java:133-136 | a scrollDelta with the x axis fixed at 0 |
| Scrolling.FScroller.Fling | lib/src/main/java/com/fanwe/lib/gesture/FScroller.java:178-191 | accepted exactly when some axis has a strictly inside start and a non-zero velocity. A rejection changes nothing. An acceptance issues one fling, keeps the last position, and copies the finished flag with edge-only notices |
| Scrolling.FScroller.FlingX | lib/src/main/java/com/fanwe/lib/gesture/FScroller.java:168-171 | a fling with zero y bounds, accepted exactly on the x condition |
| Scrolling.FScroller.FlingY | lib/src/main/java/com/fanwe/lib/gesture/FScroller.java:173-176 | a fling with zero x bounds, accepted exactly on the y condition |
| Scrolling.FScroller.ComputeScrollOffset | lib/src/main/java/com/fanwe/lib/gesture/FScroller.java:211-232 | the scroll hook and listener are told only while the platform computes and the position moved. The last position then follows the platform's, the finished flag is copied with edge-only notices, and the platform's answer is returned |
| Scrolling.FScroller.AbortAnimation | lib/src/main/java/com/fanwe/lib/gesture/FScroller.java:237-241 | one abort, the last position kept, the finished flag brought in line |
| Scrolling.FScroller.UpdateFinished | lib/src/main/java/com/fanwe/lib/gesture/FScroller.java:243-253 | the flag mirrors the platform's and the state hooks fire exactly when it flips |
| FanweGesture.Effective | lib/src/main/java/com/fanwe/lib/gesture/FGestureManager.java:100-107 | the callback that was set, or DEFAULT |
| FanweGesture.Answer | lib/src/main/java/com/fanwe/lib/gesture/FGestureManager.java:291-320 | DEFAULT declines every decision; a host callback gives its own answer |
| FanweGesture.WithCallback | lib/src/main/java/com/fanwe/lib/gesture/FGestureManager.java:100-107 | getCallback installs the effective callback and changes nothing else |
| FanweGesture.SetTagInterceptStep | lib/src/main/java/com/fanwe/lib/gesture/FGestureManager.java:31-36 | the tag is stored (with no change detection) and the callback is told once, even when the value is unchanged |
| FanweGesture.SetTagConsumeStep | lib/src/main/java/com/fanwe/lib/gesture/FGestureManager.java:38-43 | the same for the consume tag |
| FanweGesture.ResetTagStep | lib/src/main/java/com/fanwe/lib/gesture/FTagTouchHelper.java:53-57 | both tags false and both setters reported, intercept first |
| FanweGesture.ProcessStep | lib/src/main/java/com/fanwe/lib/gesture/FTagTouchHelper.java:35-48 | UP and CANCEL reset the tags through the overridden setters; other actions change nothing |
| FanweGesture.InterceptStep | lib/src/main/java/com/fanwe/lib/gesture/FGestureManager.java:115-142 | a set intercept tag returns true and changes and calls nothing. UP/CANCEL resets the tags, releases the tracker, clears has-consumed and returns false. Otherwise the policy is asked once, and its answer (false under DEFAULT) is returned and, when true, stored in the tag |
| FanweGesture.TouchStep | lib/src/main/java/com/fanwe/lib/gesture/FGestureManager.java:150-184 | DOWN returns consumeDownEvent's answer and touches no tag, and every other action returns the consume tag after processing. UP/CANCEL calls onConsumeEventFinish once after the tag reset and clears the cycle. A move with the tag set makes it onConsumeEvent's answer, setting has-consumed only on true; without the tag it becomes shouldConsumeTouchEvent's answer |
| FanweGesture.TouchDispatch | lib/src/main/java/com/fanwe/lib/gesture/FGestureManager.java:155-183 | no contract of its own: the action switch after the helper has seen the event; it is specified through FanweGesture.TouchStep's ensures and FanweGesture.GestureManager.Dispatch |
| FanweGesture.Apply | lib/src/main/java/com/fanwe/lib/gesture/FGestureManager.java:53-184 | no contract of its own: one call of setCallback, onInterceptTouchEvent or onTouchEvent, by its step function |
| FanweGesture.Run | lib/src/main/java/com/fanwe/lib/gesture/FGestureManager.java:53-184 | a run of calls gives one result per call; the run lemmas below state what the results and notices are |
| FanweGesture.DefaultStep | lib/src/main/java/com/fanwe/lib/gesture/FGestureManager.java:291-340 | under DEFAULT one call returns false and sets no tag and nothing consumed |
| FanweGesture.DefaultNeverConsumes | lib/src/main/java/com/fanwe/lib/gesture/FGestureManager.java:100-107 | with no callback set, every call of a run returns false and nothing is ever consumed |
| FanweGesture.InterceptLatch | lib/src/main/java/com/fanwe/lib/gesture/FGestureManager.java:117-120 | while the intercept tag is set, interception calls return true and change and call nothing, even on UP or CANCEL |
| FanweGesture.InterceptedStep | lib/src/main/java/com/fanwe/lib/gesture/FGestureManager.java:115-184 | one call that does not end the cycle keeps a set intercept tag and never asks shouldInterceptTouchEvent; an interception call returns true and changes nothing |
| FanweGesture.InterceptionHolds | lib/src/main/java/com/fanwe/lib/gesture/FGestureManager.java:115-184 | once the intercept tag is set, over any run without UP or CANCEL reaching the helper, the tag stays set, every interception call returns true, and shouldInterceptTouchEvent is never asked |
| FanweGesture.ConsumedInAppend | lib/src/main/java/com/fanwe/lib/gesture/FGestureManager.java:166-174 | a true onConsumeEvent answer occurs in a concatenation exactly when it occurs in one part |
| FanweGesture.ConsumedStep | lib/src/main/java/com/fanwe/lib/gesture/FGestureManager.java:166-174 | within a cycle one input sets has-consumed exactly when it was set or an onConsumeEvent answered true |
| FanweGesture.ConsumedIffOnConsumeTrue | lib/src/main/java/com/fanwe/lib/gesture/FGestureManager.java:95-98 | over a cycle, hasConsumed is true exactly when it already was or some onConsumeEvent call answered true |
| FanweGesture.GestureManager.constructor | lib/src/main/java/com/fanwe/lib/gesture/FGestureManager.java:25-51 | no tags, no callback, nothing consumed, no tracker |
| FanweGesture.GestureManager.SetCallback | lib/src/main/java/com/fanwe/lib/gesture/FGestureManager.java:53-56 | only the callback field changes |
| FanweGesture.GestureManager.GetCallback | lib/src/main/java/com/fanwe/lib/gesture/FGestureManager.java:100-107 | returns the effective callback, installing DEFAULT when none is set |
| FanweGesture.GestureManager.SetTagIntercept | lib/src/main/java/com/fanwe/lib/gesture/FGestureManager.java:31-36 | performs SetTagInterceptStep and leaves the tracker alone |
| FanweGesture.GestureManager.SetTagConsume | lib/src/main/java/com/fanwe/lib/gesture/FGestureManager.java:38-43 | performs SetTagConsumeStep |
| FanweGesture.GestureManager.ProcessTouchEvent | lib/src/main/java/com/fanwe/lib/gesture/FTagTouchHelper.java:35-48 | records the event in the tracker and performs ProcessStep |
| FanweGesture.GestureManager.OnInterceptTouchEvent | lib/src/main/java/com/fanwe/lib/gesture/FGestureManager.java:115-142 | performs InterceptStep. With the tag set the tracker is untouched; otherwise it records the event |
| FanweGesture.GestureManager.OnTouchEvent | lib/src/main/java/com/fanwe/lib/gesture/FGestureManager.java:150-184 | records the event and performs TouchStep |
| FanweGesture.GestureManager.Dispatch | lib/src/main/java/com/fanwe/lib/gesture/FGestureManager.java:155-183 | the action switch of onTouchEvent, for the callback just fetched |
| SdGesture.SetStateStep | lib/src/main/java/com/sd/lib/gesture/FGestureManager.java:108-119 | the state becomes the argument; onStateChanged(old, new) is called once exactly when they differ |
| SdGesture.SetTagInterceptStep | lib/src/main/java/com/sd/lib/gesture/FGestureManager.java:363-370 | edge-only store; the listener, if any, hears of a change |
| SdGesture.SetTagConsumeStep | lib/src/main/java/com/sd/lib/gesture/FGestureManager.java:52-58 | edge-only store. Becoming true enters Drag (reporting the state change when there is one) before the listener hears of it; becoming false only clears it |
| SdGesture.ResetTagsStep | lib/src/main/java/com/sd/lib/gesture/FGestureManager.java:386-390 | both tags false; one listener notice per tag that was set, intercept first |
| SdGesture.FinishStep | lib/src/main/java/com/sd/lib/gesture/FGestureManager.java:221-234 | the tags are reset, then the policy hears the pre-clear (has-consume, cancelled) flags, then the cycle state is cleared and Drag turns to Idle, with the notices in that order |
| SdGesture.InterceptStep | lib/src/main/java/com/sd/lib/gesture/FGestureManager.java:155-177 | UP/CANCEL finishes the cycle and returns false. While cancelled nothing is asked and false is returned. A set tag returns true without asking. Otherwise shouldInterceptEvent is asked once and its answer is stored and returned |
| SdGesture.TouchStep | lib/src/main/java/com/sd/lib/gesture/FGestureManager.java:185-214 | UP/CANCEL finishes and returns false. DOWN asks onEventActionDown and returns its answer unless cancelled. A move asks shouldConsumeEvent when the tag is clear; with the tag set it calls onEventConsume and sets has-consume. A cancelled cycle does neither and returns false |
| SdGesture.CancelStep | lib/src/main/java/com/sd/lib/gesture/FGestureManager.java:140-147 | acts only when some tag is set: marks the cycle cancelled and resets the tags; otherwise nothing changes |
| SdGesture.ScrollerFinishStep | lib/src/main/java/com/sd/lib/gesture/FGestureManager.java:78-84 | Idle unless the consume tag is set, with nothing else changed and one onStateChanged exactly when the state moved to Idle |
| SdGesture.ScrollerStartStep | lib/src/main/java/com/sd/lib/gesture/FGestureManager.java:63-68 | the state becomes Fling and nothing else changes, with one onStateChanged exactly when the state was another |
| SdGesture.ScrollerComputeStep | lib/src/main/java/com/sd/lib/gesture/FGestureManager.java:70-75 | the manager does not change, and the policy hears onScrollerCompute with the four positions |
| SdGesture.Apply | lib/src/main/java/com/sd/lib/gesture/FGestureManager.java:61-214 | no contract of its own: one call of the host or the scroller, by its step function |
| SdGesture.Run | lib/src/main/java/com/sd/lib/gesture/FGestureManager.java:61-214 | a run of calls gives one result per call; the run lemmas below state what the results and notices are |
| SdGesture.HasEventConsumeAppend | lib/src/main/java/com/sd/lib/gesture/FGestureManager.java:207-208 | an onEventConsume call occurs in a concatenation exactly when it occurs in one part |
| SdGesture.InvStep | lib/src/main/java/com/sd/lib/gesture/FGestureManager.java:140-147 | one input keeps a cancelled cycle free of tags |
| SdGesture.InvHolds | lib/src/main/java/com/sd/lib/gesture/FGestureManager.java:140-147 | every run keeps a cancelled cycle free of tags |
| SdGesture.InterceptedStep | lib/src/main/java/com/sd/lib/gesture/FGestureManager.java:169-176 | one non-ending input of an intercepted, uncancelled cycle keeps it intercepted and never asks shouldInterceptEvent; an interception call returns true without notices |
| SdGesture.InterceptionHolds | lib/src/main/java/com/sd/lib/gesture/FGestureManager.java:169-176 | once intercepted and not cancelled, until the cycle ends or is cancelled, every interception call returns true and shouldInterceptEvent is never asked again |
| SdGesture.CancelledStep | lib/src/main/java/com/sd/lib/gesture/FGestureManager.java:169-213 | one non-ending input of a cancelled cycle returns false, keeps it cancelled and tag-free, and asks no decision and reports no consumption |
| SdGesture.CancelledCycleIsSilent | lib/src/main/java/com/sd/lib/gesture/FGestureManager.java:140-213 | after a cancel, until the cycle ends, every call returns false and no interception or consumption is asked or reported |
| SdGesture.InterceptConsumes | lib/src/main/java/com/sd/lib/gesture/FGestureManager.java:155-177 | a non-ending interception call neither consumes nor changes has-consume |
| SdGesture.TouchConsumes | lib/src/main/java/com/sd/lib/gesture/FGestureManager.java:200-210 | a non-ending touch call sets has-consume exactly when it was set or it called onEventConsume |
| SdGesture.ConsumeStep | lib/src/main/java/com/sd/lib/gesture/FGestureManager.java:200-210 | one non-ending input sets has-consume exactly when it was set or onEventConsume was called |
| SdGesture.SideStepConsumes | lib/src/main/java/com/sd/lib/gesture/FGestureManager.java:61-85 | cancelling and the scroller hooks never consume and keep has-consume |
| SdGesture.CancelQuiet | lib/src/main/java/com/sd/lib/gesture/FGestureManager.java:140-147 | a cancel keeps the state and has-consume and emits only tag notices |
| SdGesture.ConsumeAggregation | lib/src/main/java/com/sd/lib/gesture/FGestureManager.java:207-208 | over a cycle, has-consume is true exactly when it already was or onEventConsume was called |
| SdGesture.FinishReportsCycle | lib/src/main/java/com/sd/lib/gesture/FGestureManager.java:221-234 | the input that ends a cycle reports whether onEventConsume was called in it (or the flag was already set) and whether it was cancelled, and leaves the cycle state cleared |
| SdGesture.SetStateChain | lib/src/main/java/com/sd/lib/gesture/FGestureManager.java:108-119 | the state notices of setState trace the state from its old to its new value |
| SdGesture.FinishChain | lib/src/main/java/com/sd/lib/gesture/FGestureManager.java:232-233 | finishing a cycle traces the state from its old value to Idle-if-Drag |
| SdGesture.InterceptChain | lib/src/main/java/com/sd/lib/gesture/FGestureManager.java:155-177 | an interception call's state notices trace the state |
| SdGesture.TouchChain | lib/src/main/java/com/sd/lib/gesture/FGestureManager.java:185-214 | a touch call's state notices trace the state |
| SdGesture.StepChain | lib/src/main/java/com/sd/lib/gesture/FGestureManager.java:52-84 | any one input's state notices trace the state |
| SdGesture.SideStepChain | lib/src/main/java/com/sd/lib/gesture/FGestureManager.java:61-85 | the scroller hooks and cancel: Fling on start, Idle on finish unless dragging |
| SdGesture.RunStateChain | lib/src/main/java/com/sd/lib/gesture/FGestureManager.java:108-119 | over any run, the onStateChanged calls are real changes that chain from the first state to the last |
| SdGesture.TagHolder.constructor | lib/src/main/java/com/sd/lib/gesture/FGestureManager.java:327-337 | both flags false, no listener |
| SdGesture.TagHolder.SetCallback | lib/src/main/java/com/sd/lib/gesture/FGestureManager.java:341-344 | only the listener changes |
| SdGesture.TagHolder.SetTagIntercept | lib/src/main/java/com/sd/lib/gesture/FGestureManager.java:363-370 | stores the flag and reports whether it changed |
| SdGesture.TagHolder.SetTagConsume | lib/src/main/java/com/sd/lib/gesture/FGestureManager.java:377-384 | stores the flag and reports whether it changed |
| SdGesture.GestureManager.constructor | lib/src/main/java/com/sd/lib/gesture/FGestureManager.java:28-43 | Idle, no tags, no flags, no tracker |
| SdGesture.GestureManager.Create | lib/src/main/java/com/sd/lib/gesture/FGestureManager.java:37-41 | a missing callback gives no manager; otherwise a fresh manager in the initial model |
| SdGesture.GestureManager.SetState | lib/src/main/java/com/sd/lib/gesture/FGestureManager.java:108-119 | performs SetStateStep |
| SdGesture.GestureManager.SetTagIntercept | lib/src/main/java/com/sd/lib/gesture/FGestureManager.java:363-370 | performs SetTagInterceptStep |
| SdGesture.GestureManager.SetTagConsume | lib/src/main/java/com/sd/lib/gesture/FGestureManager.java:377-384 | performs SetTagConsumeStep, the Drag hook included |
| SdGesture.GestureManager.ResetTags | lib/src/main/java/com/sd/lib/gesture/FGestureManager.java:386-390 | performs ResetTagsStep |
| SdGesture.GestureManager.SetCancelTouchEvent | lib/src/main/java/com/sd/lib/gesture/FGestureManager.java:140-147 | performs CancelStep |
| SdGesture.GestureManager.OnEventFinish | lib/src/main/java/com/sd/lib/gesture/FGestureManager.java:221-234 | performs FinishStep |
| SdGesture.GestureManager.OnInterceptTouchEvent | lib/src/main/java/com/sd/lib/gesture/FGestureManager.java:155-177 | performs InterceptStep |
| SdGesture.GestureManager.OnTouchEvent | lib/src/main/java/com/sd/lib/gesture/FGestureManager.java:185-214 | performs TouchStep |
| SdGesture.GestureManager.OnScrollerStart | lib/src/main/java/com/sd/lib/gesture/FGestureManager.java:63-68 | enters Fling through setState |
| SdGesture.GestureManager.OnScrollerCompute | lib/src/main/java/com/sd/lib/gesture/FGestureManager.java:70-75 | forwards the positions to the policy |
| SdGesture.GestureManager.OnScrollerFinish | lib/src/main/java/com/sd/lib/gesture/FGestureManager.java:77-84 | performs ScrollerFinishStep |
| ViewPositions.ViewPosition.constructor | lib/src/main/java/com/fanwe/lib/gesture/utils/FViewPosition.java:7-8 | the fields start at 0, so a new instance already has a position |
| ViewPositions.ViewPosition.HasPosition | lib/src/main/java/com/fanwe/lib/gesture/utils/FViewPosition.java:31-34 | no contract of its own: both coordinates non-negative; the constructor, Reset and Layout state when it holds |
| ViewPositions.ViewPosition.Save | lib/src/main/java/com/fanwe/lib/gesture/utils/FViewPosition.java:10-19 | a null view is refused and the stored corner kept; otherwise the view's left and top are stored |
| ViewPositions.ViewPosition.Reset | lib/src/main/java/com/fanwe/lib/gesture/utils/FViewPosition.java:36-40 | stores (-1, -1), so there is no position afterwards |
| ViewPositions.ViewPosition.Layout | lib/src/main/java/com/fanwe/lib/gesture/utils/FViewPosition.java:42-55 | succeeds exactly for a non-null view with a stored position with both coordinates non-negative. A refusal leaves the view alone. A success puts its corner at the stored one and keeps its size, padding, margins and children |
| ViewPositions.SaveThenLayoutRestores | lib/src/main/java/com/fanwe/lib/gesture/utils/FViewPosition.java:10-55 | saving a view, moving it and laying it out again restores its frame |
| Views.View.Layout | lib/src/main/java/com/fanwe/lib/gesture/utils/FViewPosition.java:53 | the frame becomes the four arguments and nothing else of the view changes |

## Left out

- Angles (getDegreeXFrom/getDegreeYFrom): they use `atan` and floating-point degree conversion.
- Click detection (isClick, in the tracker and in the fanwe manager): it reads platform constants and event timestamps.
- requestDisallowInterceptTouchEvent, isViewUnderScreen and isScrollToLeft/Top/Right/Bottom: thin wrappers over platform view calls.
- The sample getters (getCurrentX and the rest), isTagIntercept/isTagConsume, hasConsumed, getState and the manager's getTouchHelper/getTagHolder/getScroller: they read a field, and the model exposes those fields directly.
- Debug output (setDebug, getDebugInfo and the log calls): no effect on the modelled state.
- Coordinates: the platform reports floats; the model uses integers because every retained use is a subtraction or a sign test.
- Scrolling.ComputeDuration: `Math.abs(dx*dx) + Math.abs(dy*dy)` is taken as exact integers. In Java the 32-bit products wrap once |dx| or |dy| exceeds 46340, and the absolute value of a wrapped product can stay negative; the model does not reproduce that.
- Scrolling.ComputeDuration: the square root and the float division are not computed. The caller supplies the distance, required to be the exact Euclidean length of (dx, dy) (Scrolling.IsLength); the proofs use only the bounds max(|dx|, |dy|) ≤ distance ≤ |dx| + |dy| that such a length satisfies. Float rounding is not modelled.
- Scrolling.FScroller.ScrollDelta: the computed duration inherits both ComputeDuration limits above: no 32-bit wrap-around for |dx| or |dy| above 46340, and no float rounding.
- Touch.LegalDelta: 32-bit wrap-around of `current + delta` is not modelled; integers are unbounded.
- ViewPositions.ViewPosition.Layout: 32-bit wrap-around of `left + width` is not modelled.
- The platform scroller (android.widget.Scroller), its motion profile and clock: abstracted to a finished flag and a position that every operation may change arbitrarily.
- Velocity trackers: obtain, recycle and addMovement are left out; only whether a tracker is held is kept, as a flag.
- fanwe FGestureManager.getScroller and computeScroll: they call an FScroller constructor taking a context and getDeltaX/getDeltaY, none of which exist in FScroller.java.
- The sd FScroller and FTouchHelper are not part of this model. The sd manager's scroller start, compute and finish hooks are inputs, and its pointer tracking is not modelled.
- sd onEventStart: it has an empty body.
- sd TagHolder.java: an interface with no behaviour.
- The demo application (both ViewDragFrameLayout classes, ViewDragHelperFrameLayout, FirstFrameLayout, SecondFrameLayout, EventLogger, MainActivity, TestViewDragActivity): UI glue over platform views.
- Inheritance: FTagTouchHelper's subclassing of the tracker, and the managers' anonymous subclasses, are modelled by composition. The overridden hooks are inlined into the owning class.
- Host policy callbacks: only their answers (as inputs) and the fact that they are called (as notices) are modelled; what they do is not.
- The fanwe manager's helper is declared as an FTouchHelper, but it overrides tag setters that exist only in FTagTouchHelper. The model gives it FTagTouchHelper's behaviour, including the tag reset on UP and CANCEL.

## Notes on the source

- computeDuration does not clamp the distance percentage to 1, and it truncates rather than rounds. The model keeps both.
- computeDuration can return more than the maximum duration: with a zero maximum distance it returns the minimum duration even when that is larger (Scrolling.ComputeDuration states this).
- A fling leaves the last position as it was; only scrollDelta and computeScrollOffset set it.
- sd onTouchEvent asks onEventActionDown on DOWN even while the cycle is cancelled; only its return value is forced to false.
- fanwe onInterceptTouchEvent, with the intercept tag set, returns before the helper sees the event, so even UP and CANCEL leave the tags set there (FanweGesture.InterceptLatch).
- A new FViewPosition has a position (0, 0) before any save.

## Findings

| source | as written | input that shows it | evidently intended | confidence | as-written member | corrected member |
|---|---|---|---|---|---|---|
| lib/src/main/java/com/fanwe/lib/gesture/FTouchHelper.java:435 | getTopAlignParentBottom subtracts the parent's top padding | top padding 10, bottom padding 0, parent height 100, child height 20, no margin: it returns 70, so the child's bottom lands at 90 rather than 100 | subtract the parent's bottom padding, as getLeftAlignParentRight subtracts the right padding | not executed | Touch.TopAlignParentBottomAsWritten (Touch.TopAlignParentBottomAsWrittenMisaligns) | Touch.TopAlignParentBottom (Touch.AlignedEdges) |
