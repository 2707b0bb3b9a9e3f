/** FTagTouchHelper: the pointer tracker plus the intercept and consume tags.
    The source subclasses the tracker; here the helper owns its tracker. The
    tag setters store their argument with no change detection, and processing
    an UP or CANCEL clears both tags after the tracker update. */
module TagTouch {
  import opened Events
  import opened Touch

  class TagTouchHelper {
    const touch: TouchHelper
    var tagIntercept: bool
    var tagConsume: bool

    constructor ()
      ensures fresh(touch)
      ensures !tagIntercept && !tagConsume
      ensures touch.current == touch.last == touch.down == Point(0, 0)
    {
      touch := new TouchHelper();
      tagIntercept := false;
      tagConsume := false;
    }

    method ProcessTouchEvent(ev: MotionEvent)
      modifies this, touch
      ensures touch.History() == Record(old(touch.History()), ev)
      ensures IsTerminal(ev.action) ==> !tagIntercept && !tagConsume
      ensures !IsTerminal(ev.action) ==> tagIntercept == old(tagIntercept) && tagConsume == old(tagConsume)
    {
      touch.ProcessTouchEvent(ev);
      if IsTerminal(ev.action) {
        ResetTag();
      }
    }

    method ResetTag()
      modifies this
      ensures !tagIntercept && !tagConsume
    {
      SetTagIntercept(false);
      SetTagConsume(false);
    }

    method SetTagIntercept(tag: bool)
      modifies this
      ensures tagIntercept == tag && tagConsume == old(tagConsume)
    {
      tagIntercept := tag;
    }

    method SetTagConsume(tag: bool)
      modifies this
      ensures tagConsume == tag && tagIntercept == old(tagIntercept)
    {
      tagConsume := tag;
    }
  }
}
