/**
 * The toast provider of globalFeedbackSnackbarProvider.js: the generic scheduler over
 * queued toasts, plus the `isCurrentSnackbarVisible` cell that the mounted toast sets
 * through its `isVisible` callback, and the two effects (the flag effect, then the
 * promotion effect) that run after every change.
 */
module SnackbarProvider {
  import opened Wrappers
  import opened ItemScheduler
  import opened SnackbarMessages

  /** The duration every enqueue function defaults to, in milliseconds. */
  const DefaultDurationMs: int := 5000

  /** A queued toast: the component that draws it, its text, its duration in ms and its key (a clock reading). */
  datatype Snackbar = Snackbar(component: Kind, message: string, duration: int, key: int)

  /** The record enqueueSnackbar and replaceAndEnqueueSnackbar build; `duration` defaults to 5000. */
  function NewSnackbar(component: Kind, message: string, duration: Option<int>, key: int): (t: Snackbar)
    ensures duration.None? ==> t.duration == DefaultDurationMs
    ensures duration.Some? ==> t.duration == duration.value
    ensures t.component == component && t.message == message && t.key == key
  {
    Snackbar(component, message, duration.GetOr(DefaultDurationMs), key)
  }

  /** The provider's three state cells. */
  datatype Provider = Provider(sched: State<Snackbar>, visible: bool)

  function Initial(): Provider {
    Provider(Empty(), false)
  }

  /** The provider's entry points: the three producer operations and the isVisible callback. */
  datatype Event = Enqueue(item: Snackbar) | ReplaceAndEnqueue(item: Snackbar) | CloseCurrent | IsVisible(v: bool)

  /** The state change an entry point makes before any effect runs. */
  function Update(p: Provider, e: Event): Provider {
    match e
    case Enqueue(x) => p.(sched := Append(p.sched, x))
    case ReplaceAndEnqueue(x) => p.(sched := PrependAndClear(p.sched, x))
    case CloseCurrent => p.(sched := Cleared(p.sched))
    case IsVisible(v) => p.(visible := v)
  }

  /** The flag effect: it runs when the flag has changed, and closes the current toast if the flag is now false. */
  function FlagEffect(before: bool, p: Provider): (r: Provider)
    ensures r.visible == p.visible
    ensures before && !p.visible ==> r.sched == Cleared(p.sched)
    ensures !(before && !p.visible) ==> r == p
  {
    if before != p.visible && !p.visible then p.(sched := Cleared(p.sched)) else p
  }

  /** An entry point followed by the flag effect and then the promotion effect. */
  function Handle(p: Provider, e: Event): (r: Provider)
    ensures Settled(r.sched)
    ensures r.visible == (if e.IsVisible? then e.v else p.visible)
    ensures e.Enqueue? ==> Items(r.sched) == Items(p.sched) + [e.item]
    ensures e.ReplaceAndEnqueue? ==> Items(r.sched) == [e.item] + p.sched.queue
    ensures e.CloseCurrent? ==> Items(r.sched) == p.sched.queue
    ensures e.IsVisible? && p.visible && !e.v ==> Items(r.sched) == p.sched.queue
    ensures e.IsVisible? && !(p.visible && !e.v) ==> r.sched == Settle(p.sched)
  {
    var q := FlagEffect(p.visible, Update(p, e));
    q.(sched := Settle(q.sched))
  }

  /** Whether an entry point empties the slot: the two closing operations, and the flag turning false. */
  predicate Clears(p: Provider, e: Event) {
    e.ReplaceAndEnqueue? || e.CloseCurrent? || (e.IsVisible? && p.visible && !e.v)
  }

  /**
   * What each entry point does, once both effects have run: the slot is settled; enqueue
   * adds one toast behind everything held; a clearing entry point drops the current toast
   * (replaceAndEnqueue puts its toast ahead of the queue); isVisible(true), or isVisible(false)
   * while the flag is already false, changes nothing but the flag.
   */
  lemma HandleEffects(p: Provider, e: Event)
    requires Settled(p.sched)
    ensures Settled(Handle(p, e).sched)
    ensures Handle(p, e).visible == (if e.IsVisible? then e.v else p.visible)
    ensures e.Enqueue? ==> Items(Handle(p, e).sched) == Items(p.sched) + [e.item]
    ensures e.ReplaceAndEnqueue? ==> Handle(p, e).sched == State(p.sched.queue, Some(e.item))
    ensures Clears(p, e) && !e.ReplaceAndEnqueue? ==> Items(Handle(p, e).sched) == p.sched.queue
    ensures !Clears(p, e) && !e.Enqueue? ==> Handle(p, e).sched == p.sched
  {
  }

  /** The props the provider mounts the current toast's component with: the duration in seconds. */
  datatype Mount = Mount(component: Kind, message: string, messageKey: int, hideAfterSeconds: real)

  /**
   * The render: a component is mounted iff there is a current toast, with its text,
   * its key as messageKey and `duration / 1000` seconds, so that the component's own
   * timeout, `hideAfterSeconds * 1000`, is the toast's duration in ms.
   */
  function Rendered(current: Option<Snackbar>): (m: Option<Mount>)
    ensures m.Some? <==> current.Some?
    ensures m.Some? ==>
              && m.value.component == current.value.component
              && m.value.message == current.value.message
              && m.value.messageKey == current.value.key
              && TimeoutMs(Mounted(m.value.component, m.value.message, m.value.messageKey,
                                   Some(m.value.hideAfterSeconds))) == current.value.duration as real
  {
    match current
    case None => None
    case Some(t) => Some(Mount(t.component, t.message, t.key, t.duration as real / 1000.0))
  }

  /** GlobalFeedbackSnackbarProvider's state cells and entry points. */
  class FeedbackSnackbarProvider {
    const sched: Scheduler<Snackbar>
    var isCurrentSnackbarVisible: bool

    function Model(): Provider
      reads this, sched
    {
      Provider(sched.Model(), isCurrentSnackbarVisible)
    }

    constructor ()
      ensures fresh(sched)
      ensures Model() == Initial()
    {
      sched := new Scheduler<Snackbar>();
      isCurrentSnackbarVisible := false;
    }

    /** The flag effect and then the promotion effect, given the flag's value before the change. */
    method RunEffects(before: bool)
      modifies sched
      ensures Model() == var q := FlagEffect(before, old(Model())); q.(sched := Settle(q.sched))
    {
      if before != isCurrentSnackbarVisible && !isCurrentSnackbarVisible {
        sched.CloseCurrent();
      }
      sched.Dispatch();
    }

    method EnqueueSnackbar(component: Kind, message: string, duration: Option<int>, key: int)
      modifies sched
      ensures Model() == Handle(old(Model()), Event.Enqueue(NewSnackbar(component, message, duration, key)))
    {
      sched.Enqueue(Snackbar(component, message, duration.GetOr(DefaultDurationMs), key));
      RunEffects(isCurrentSnackbarVisible);
    }

    method ReplaceAndEnqueueSnackbar(component: Kind, message: string, duration: Option<int>, key: int)
      modifies sched
      ensures Model() == Handle(old(Model()), Event.ReplaceAndEnqueue(NewSnackbar(component, message, duration, key)))
    {
      sched.ReplaceAndEnqueue(Snackbar(component, message, duration.GetOr(DefaultDurationMs), key));
      RunEffects(isCurrentSnackbarVisible);
    }

    method CloseCurrentSnackbar()
      modifies sched
      ensures Model() == Handle(old(Model()), CloseCurrent)
    {
      sched.CloseCurrent();
      RunEffects(isCurrentSnackbarVisible);
    }

    /** setIsCurrentSnackbarVisible, the `isVisible` callback the mounted toast calls. */
    method SetIsCurrentSnackbarVisible(v: bool)
      modifies this, sched
      ensures Model() == Handle(old(Model()), IsVisible(v))
    {
      var before := isCurrentSnackbarVisible;
      isCurrentSnackbarVisible := v;
      RunEffects(before);
    }

    method EnqueueSuccessFeedbackSnackbar(message: string, duration: Option<int>, key: int)
      modifies sched
      ensures Model() == Handle(old(Model()), Event.Enqueue(Snackbar(Success, message, duration.GetOr(DefaultDurationMs), key)))
    {
      EnqueueSnackbar(Success, message, Some(duration.GetOr(DefaultDurationMs)), key);
    }

    method EnqueueAlertFeedbackSnackbar(message: string, duration: Option<int>, key: int)
      modifies sched
      ensures Model() == Handle(old(Model()), Event.Enqueue(Snackbar(Alert, message, duration.GetOr(DefaultDurationMs), key)))
    {
      EnqueueSnackbar(Alert, message, Some(duration.GetOr(DefaultDurationMs)), key);
    }

    method ReplaceAndEnqueueSuccessFeedbackSnackbar(message: string, duration: Option<int>, key: int)
      modifies sched
      ensures Model() == Handle(old(Model()), Event.ReplaceAndEnqueue(Snackbar(Success, message, duration.GetOr(DefaultDurationMs), key)))
    {
      ReplaceAndEnqueueSnackbar(Success, message, Some(duration.GetOr(DefaultDurationMs)), key);
    }

    method ReplaceAndEnqueueAlertFeedbackSnackbar(message: string, duration: Option<int>, key: int)
      modifies sched
      ensures Model() == Handle(old(Model()), Event.ReplaceAndEnqueue(Snackbar(Alert, message, duration.GetOr(DefaultDurationMs), key)))
    {
      ReplaceAndEnqueueSnackbar(Alert, message, Some(duration.GetOr(DefaultDurationMs)), key);
    }

    /** The component the provider renders for the current toast, if any. */
    function Current(): Option<Mount>
      reads this, sched
    {
      Rendered(sched.current)
    }
  }
}
