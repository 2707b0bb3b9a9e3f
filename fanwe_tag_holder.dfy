/** The intercept and consume tags of the `fanwe` package (tag/FTagHolder):
    each setter acts only on a real change, and then notifies the protected
    hook and, if registered, the listener, once each with the new value. */
module FanweTags {
  import opened Events

  datatype TagChange = InterceptChanged(tag: bool) | ConsumeChanged(tag: bool)

  /** One delivered notification. */
  datatype Notice = Notice(to: Receiver, change: TagChange)

  /** The notifications one change produces for the given listener. */
  function Notify(listener: Option<Listener>, change: TagChange): (ns: seq<Notice>)
    ensures |ns| == |Receivers(listener)|
    ensures forall i :: 0 <= i < |ns| ==> ns[i] == Notice(Receivers(listener)[i], change)
  {
    if listener.Some? then [Notice(Hook, change), Notice(ToListener(listener.value), change)]
    else [Notice(Hook, change)]
  }

  class TagHolder {
    var tagIntercept: bool
    var tagConsume: bool
    var callback: Option<Listener>
    /** Every notification delivered so far, oldest first. */
    ghost var log: seq<Notice>

    constructor ()
      ensures !tagIntercept && !tagConsume && callback == None && log == []
    {
      tagIntercept, tagConsume, callback := false, false, None;
      log := [];
    }

    method SetCallback(c: Option<Listener>)
      modifies this
      ensures callback == c
      ensures tagIntercept == old(tagIntercept) && tagConsume == old(tagConsume) && log == old(log)
    {
      callback := c;
    }

    method SetTagIntercept(tag: bool)
      modifies this
      ensures tagIntercept == tag
      ensures tagConsume == old(tagConsume) && callback == old(callback)
      ensures log == old(log) + if old(tagIntercept) == tag then [] else Notify(callback, InterceptChanged(tag))
    {
      if tagIntercept != tag {
        tagIntercept := tag;
        log := log + [Notice(Hook, InterceptChanged(tag))];
        if callback.Some? {
          log := log + [Notice(ToListener(callback.value), InterceptChanged(tag))];
        }
      }
    }

    method SetTagConsume(tag: bool)
      modifies this
      ensures tagConsume == tag
      ensures tagIntercept == old(tagIntercept) && callback == old(callback)
      ensures log == old(log) + if old(tagConsume) == tag then [] else Notify(callback, ConsumeChanged(tag))
    {
      if tagConsume != tag {
        tagConsume := tag;
        log := log + [Notice(Hook, ConsumeChanged(tag))];
        if callback.Some? {
          log := log + [Notice(ToListener(callback.value), ConsumeChanged(tag))];
        }
      }
    }

    /** Clears both tags; only a tag that was set notifies, so resetting
        cleared tags delivers nothing. */
    method Reset()
      modifies this
      ensures !tagIntercept && !tagConsume && callback == old(callback)
      ensures log == old(log)
        + (if old(tagIntercept) then Notify(callback, InterceptChanged(false)) else [])
        + (if old(tagConsume) then Notify(callback, ConsumeChanged(false)) else [])
      ensures !old(tagIntercept) && !old(tagConsume) ==> log == old(log)
    {
      SetTagIntercept(false);
      SetTagConsume(false);
    }
  }
}
