/**
 * The dialog provider of dialogProvider.js: the same scheduler over dialogs. A dialog is
 * a component (opaque here) and the props to render it with; the provider renders the
 * current one with its props and its own close function as `onClose`.
 */
module DialogProvider {
  import opened Wrappers
  import opened ItemScheduler

  /** A queued dialog: the component to render and its props. */
  datatype Dialog<C, V> = Dialog(component: C, props: map<string, V>)

  /** The record enqueueDialog and replaceAndEnqueueDialog build; `props` defaults to `{}`. */
  function NewDialog<C, V>(component: C, props: Option<map<string, V>>): (d: Dialog<C, V>)
    ensures d.component == component
    ensures props.None? ==> d.props == map[]
    ensures props.Some? ==> d.props == props.value
  {
    Dialog(component, props.GetOr(map[]))
  }

  /** A prop of the rendered dialog: one of its own, or the provider's closeCurrentlyVisibleDialog. */
  datatype PropValue<V> = Given(value: V) | ProviderClose

  /** The element the provider renders. */
  datatype Element<C, V> = Element(component: C, props: map<string, PropValue<V>>)

  /**
   * The render: an element iff a dialog is current, with the dialog's props spread first and
   * `onClose` after them, so `onClose` is always the provider's close, whatever the props say.
   */
  function Render<C, V>(current: Option<Dialog<C, V>>): (r: Option<Element<C, V>>)
    ensures r.Some? <==> current.Some?
    ensures r.Some? ==>
              && r.value.component == current.value.component
              && r.value.props.Keys == current.value.props.Keys + {"onClose"}
              && r.value.props["onClose"] == ProviderClose
              && forall k :: k in current.value.props && k != "onClose" ==> r.value.props[k] == Given(current.value.props[k])
  {
    match current
    case None => None
    case Some(d) => Some(Element(d.component, (map k | k in d.props :: Given(d.props[k]))["onClose" := ProviderClose]))
  }

  /** A call on the dialog provider. */
  datatype DialogCall<C, V> =
    | PushDialog(component: C, props: Option<map<string, V>>)
    | PreemptDialog(component: C, props: Option<map<string, V>>)
    | CloseDialog

  /** The scheduler operation a call performs. */
  function ToOp<C, V>(c: DialogCall<C, V>): Op<Dialog<C, V>> {
    match c
    case PushDialog(comp, props) => Enqueue(NewDialog(comp, props))
    case PreemptDialog(comp, props) => ReplaceAndEnqueue(NewDialog(comp, props))
    case CloseDialog => Close
  }

  function ToOps<C, V>(cs: seq<DialogCall<C, V>>): (ops: seq<Op<Dialog<C, V>>>)
    ensures |ops| == |cs|
    ensures forall i :: 0 <= i < |cs| ==> ops[i] == ToOp(cs[i])
  {
    if cs == [] then [] else [ToOp(cs[0])] + ToOps(cs[1..])
  }

  /** The dialogs enqueueDialog built, in call order. */
  function PushedDialogs<C, V>(cs: seq<DialogCall<C, V>>): seq<Dialog<C, V>> {
    if cs == [] then []
    else (if cs[0].PushDialog? then [NewDialog(cs[0].component, cs[0].props)] else []) + PushedDialogs(cs[1..])
  }

  lemma {:induction false} EnqueuedArePushed<C, V>(cs: seq<DialogCall<C, V>>)
    ensures Enqueued(ToOps(cs)) == PushedDialogs(cs)
    decreases |cs|
  {
    if cs != [] {
      EnqueuedArePushed(cs[1..]);
      assert ToOps(cs)[1..] == ToOps(cs[1..]);
    }
  }

  /**
   * Dialogs are shown in FIFO order under enqueueDialog and closeCurrentlyVisibleDialog:
   * the dialogs that become visible, then the ones still pending, are the ones pending at
   * the start followed by the enqueued ones (props defaulted), in call order.
   */
  lemma DialogsShownInOrder<C, V>(s: State<Dialog<C, V>>, cs: seq<DialogCall<C, V>>)
    requires forall i :: 0 <= i < |cs| ==> !cs[i].PreemptDialog?
    ensures Run(s, ToOps(cs)).shown + Run(s, ToOps(cs)).final.queue == s.queue + PushedDialogs(cs)
  {
    ShownInInsertionOrder(s, ToOps(cs));
    EnqueuedArePushed(cs);
  }

  /** DialogProvider's state cells and entry points; each ends with the promotion effect. */
  class DialogProvider<C, V> {
    const sched: Scheduler<Dialog<C, V>>

    constructor ()
      ensures fresh(sched)
      ensures sched.Model() == Empty()
    {
      sched := new Scheduler<Dialog<C, V>>();
    }

    method EnqueueDialog(component: C, props: Option<map<string, V>>)
      modifies sched
      ensures sched.Model() == Settle(Append(old(sched.Model()), NewDialog(component, props)))
    {
      sched.Enqueue(Dialog(component, props.GetOr(map[])));
      sched.Dispatch();
    }

    /** Prepends the dialog and closes the visible one, which is dropped rather than re-queued. */
    method ReplaceAndEnqueueDialog(component: C, props: Option<map<string, V>>)
      modifies sched
      ensures sched.Model() == Settle(PrependAndClear(old(sched.Model()), NewDialog(component, props)))
    {
      sched.ReplaceAndEnqueue(Dialog(component, props.GetOr(map[])));
      sched.Dispatch();
    }

    method CloseCurrentlyVisibleDialog()
      modifies sched
      ensures sched.Model() == Settle(Cleared(old(sched.Model())))
    {
      sched.CloseCurrent();
      sched.Dispatch();
    }

    /** The element rendered for the visible dialog, if any. */
    function Rendered(): Option<Element<C, V>>
      reads this, sched
    {
      Render(sched.current)
    }
  }
}
