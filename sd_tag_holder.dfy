/** The intercept and consume tags of the `sd` package (tag/FTagHolder):
    each setter acts only on a real change, and then notifies the protected
    hook and, if registered, the listener, once each with the new value.
    A missing listener is tolerated: only the hook is notified. The class is
    the same as the `fanwe` one, so it shares that module's notices. */
module SdTags {
  import opened Events
  import FT = FanweTags

  class TagHolder {
    var tagIntercept: bool
    var tagConsume: bool
    var callback: Option<Listener>
    /** Every notification delivered so far, oldest first. */
    ghost var log: seq<FT.Notice>

    constructor ()
      ensures !tagIntercept && !tagConsume && callback == None && log == []
    {
      tagIntercept, tagConsume, callback := false, false, None;
      log := [];
    }

    method SetCallback(c: Option<Listener>)
      modifies this
      ensures callback == c
      ensures tagIntercept == old(tagIntercept) && tagConsume == old(tagConsume) && log == old(log)
    {
      callback := c;
    }

    method SetTagIntercept(tag: bool)
      modifies this
      ensures tagIntercept == tag
      ensures tagConsume == old(tagConsume) && callback == old(callback)
      ensures log == old(log) + if old(tagIntercept) == tag then [] else FT.Notify(callback, FT.InterceptChanged(tag))
    {
      if tagIntercept != tag {
        tagIntercept := tag;
        log := log + [FT.Notice(Hook, FT.InterceptChanged(tag))];
        if callback.Some? {
          log := log + [FT.Notice(ToListener(callback.value), FT.InterceptChanged(tag))];
        }
      }
    }

    method SetTagConsume(tag: bool)
      modifies this
      ensures tagConsume == tag
      ensures tagIntercept == old(tagIntercept) && callback == old(callback)
      ensures log == old(log) + if old(tagConsume) == tag then [] else FT.Notify(callback, FT.ConsumeChanged(tag))
    {
      if tagConsume != tag {
        tagConsume := tag;
        log := log + [FT.Notice(Hook, FT.ConsumeChanged(tag))];
        if callback.Some? {
          log := log + [FT.Notice(ToListener(callback.value), FT.ConsumeChanged(tag))];
        }
      }
    }

    /** Clears both tags; only a tag that was set notifies, so resetting
        cleared tags delivers nothing. */
    method Reset()
      modifies this
      ensures !tagIntercept && !tagConsume && callback == old(callback)
      ensures log == old(log)
        + (if old(tagIntercept) then FT.Notify(callback, FT.InterceptChanged(false)) else [])
        + (if old(tagConsume) then FT.Notify(callback, FT.ConsumeChanged(false)) else [])
      ensures !old(tagIntercept) && !old(tagConsume) ==> log == old(log)
    {
      SetTagIntercept(false);
      SetTagConsume(false);
    }
  }
}
