/**
 * The displayed-toast lifecycle of SnackbarSuccessMessage.jsx and SnackbarAlertMessage.jsx.
 * The two components are the same code except for the severity of the alert they draw,
 * so one component with a `Kind` tag models both.
 *
 * The open effect runs on mount and whenever `message` or `messageKey` changes; it
 * opens the snackbar, reports `isVisible(true)` and starts a timer that will call
 * handleClose. The effect returns no cleanup, so a timer once started is never
 * cancelled: the only way a timer leaves `timers` is by firing.
 */
module SnackbarMessages {
  import opened Wrappers

  /** Which component renders the toast: SnackbarSuccessMessage or SnackbarAlertMessage. */
  datatype Kind = Success | Alert

  /** The MUI alert severity each component draws with. */
  function Severity(k: Kind): string {
    match k
    case Success => "success"
    case Alert => "error"
  }

  const DefaultHideAfterSeconds: real := 10.0

  /** A pending setTimeout started by the open effect: the messageKey it was started for and its delay. */
  datatype Timer = Timer(key: int, delayMs: real)

  /** A mounted instance: its props, its `open` state cell and the timers it has started and that have not fired. */
  datatype Message = Message(kind: Kind, message: string, messageKey: int, hideAfterSeconds: real,
                             open: bool, timers: seq<Timer>)

  /** What a step leaves behind and the `isVisible` call it makes, if it makes one. */
  datatype Reaction = Reaction(after: Message, reported: Option<bool>)

  /** A JavaScript string is falsy exactly when it is empty. */
  predicate Truthy(s: string) {
    |s| > 0
  }

  /** The first render: `open` starts false, `hideAfterSeconds` defaults to 10, no timer yet. */
  function Mounted(kind: Kind, message: string, messageKey: int, hideAfterSeconds: Option<real>): Message {
    Message(kind, message, messageKey, hideAfterSeconds.GetOr(DefaultHideAfterSeconds), false, [])
  }

  function TimeoutMs(m: Message): real {
    m.hideAfterSeconds * 1000.0
  }

  /** The open effect: nothing for a falsy message; otherwise open, report true, start a timer. */
  function OpenEffect(m: Message): Reaction {
    if !Truthy(m.message) then Reaction(m, None)
    else Reaction(m.(open := true, timers := m.timers + [Timer(m.messageKey, TimeoutMs(m))]), Some(true))
  }

  /** handleClose, whichever path calls it: close and report false. */
  function Closed(m: Message): Reaction {
    Reaction(m.(open := false), Some(false))
  }

  /** The sequence with its element at index i taken out. */
  function RemoveAt<X>(s: seq<X>, i: nat): (r: seq<X>)
    requires i < |s|
    ensures |r| == |s| - 1
    ensures forall j :: 0 <= j < i ==> r[j] == s[j]
    ensures forall j :: i <= j < |r| ==> r[j] == s[j + 1]
  {
    s[..i] + s[i + 1..]
  }

  /** Timer i fires: it is no longer pending, and it calls handleClose. */
  function Expire(m: Message, i: nat): Reaction
    requires i < |m.timers|
  {
    Closed(m.(timers := RemoveAt(m.timers, i)))
  }

  /** A re-render with new props: the effect runs again only if `message` or `messageKey` changed. */
  function Rerendered(m: Message, message: string, messageKey: int): Reaction {
    if message == m.message && messageKey == m.messageKey then Reaction(m, None)
    else OpenEffect(m.(message := message, messageKey := messageKey))
  }

  /** What the component draws: the alert (with its severity and text) while open, nothing otherwise. */
  function View(m: Message): Option<(string, string)> {
    if m.open then Some((Severity(m.kind), m.message)) else None
  }

  /** What can happen to a mounted instance. The close button exists only while open. */
  datatype Input = Props(message: string, messageKey: int) | CloseClicked | TimeoutFired(index: nat)

  predicate Enabled(m: Message, e: Input) {
    match e
    case Props(_, _) => true
    case CloseClicked => m.open
    case TimeoutFired(i) => i < |m.timers|
  }

  /**
   * One input to the component. New props with a changed message or key are stored, and
   * a truthy message opens the toast, reports `isVisible(true)` and starts a timer of
   * `hideAfterSeconds * 1000` for the new key; unchanged props do nothing. Every report
   * is `isVisible(true)` on such an opening or `isVisible(false)` on a close; a timer
   * leaves the pending set only by firing.
   */
  function Step(m: Message, e: Input): (r: Reaction)
    requires Enabled(m, e)
    ensures r.reported == Some(true) ==> r.after.open && Truthy(r.after.message)
    ensures r.reported == Some(false) <==> e.CloseClicked? || e.TimeoutFired?
    ensures r.reported == Some(false) ==> !r.after.open
    ensures r.reported.None? ==> r.after.open == m.open
    ensures !e.TimeoutFired? ==> m.timers <= r.after.timers
    ensures e.TimeoutFired? ==> |r.after.timers| == |m.timers| - 1
    ensures View(r.after).None? <==> !r.after.open
    ensures e.CloseClicked? ==> r.after == m.(open := false)
    ensures e.TimeoutFired? ==> r.after == m.(open := false, timers := RemoveAt(m.timers, e.index))
    ensures e.Props? ==> r.after.kind == m.kind && r.after.hideAfterSeconds == m.hideAfterSeconds
    ensures e.Props? && e.message == m.message && e.messageKey == m.messageKey ==> r == Reaction(m, None)
    ensures e.Props? && (e.message != m.message || e.messageKey != m.messageKey) ==>
              && r.after.message == e.message && r.after.messageKey == e.messageKey
              && (Truthy(e.message) ==>
                    && r.reported == Some(true) && r.after.open
                    && r.after.timers == m.timers + [Timer(e.messageKey, TimeoutMs(m))])
              && (!Truthy(e.message) ==> r.reported.None? && r.after.timers == m.timers)
  {
    match e
    case Props(message, key) => Rerendered(m, message, key)
    case CloseClicked => Closed(m)
    case TimeoutFired(i) => Expire(m, i)
  }

  /** Runs the inputs in order; `reports` are the isVisible calls made, in order. */
  function Run(m: Message, es: seq<Input>): (Message, seq<bool>)
    decreases |es|
  {
    if es == [] || !Enabled(m, es[0]) then (m, [])
    else
      var r := Step(m, es[0]);
      var rest := Run(r.after, es[1..]);
      (rest.0, (if r.reported.Some? then [r.reported.value] else []) + rest.1)
  }

  /**
   * A falsy message never opens the snackbar and never calls isVisible, whatever
   * re-keying happens, as long as every message passed stays falsy.
   */
  lemma {:induction false} FalsyMessageStaysClosed(m: Message, es: seq<Input>)
    requires !m.open && !Truthy(m.message)
    requires forall i :: 0 <= i < |es| ==> es[i].Props? && !Truthy(es[i].message)
    ensures !Run(m, es).0.open && Run(m, es).1 == [] && View(Run(m, es).0).None?
    decreases |es|
  {
    if es != [] {
      var r := Step(m, es[0]);
      assert r.reported.None? && !r.after.open && !Truthy(r.after.message);
      assert forall i :: 0 <= i < |es[1..]| ==> es[1..][i].Props? && !Truthy(es[1..][i].message) by {
        forall i | 0 <= i < |es[1..]| ensures es[1..][i].Props? && !Truthy(es[1..][i].message) {
          assert es[1..][i] == es[i + 1];
        }
      }
      FalsyMessageStaysClosed(r.after, es[1..]);
    }
  }

  /** Counts the inputs that re-key the instance with a truthy message. */
  function Openings(m: Message, es: seq<Input>): nat
    decreases |es|
  {
    if es == [] || !Enabled(m, es[0]) then 0
    else
      var r := Step(m, es[0]);
      (if r.reported == Some(true) then 1 else 0) + Openings(r.after, es[1..])
  }

  function Firings(m: Message, es: seq<Input>): nat
    decreases |es|
  {
    if es == [] || !Enabled(m, es[0]) then 0
    else (if es[0].TimeoutFired? then 1 else 0) + Firings(Step(m, es[0]).after, es[1..])
  }

  /**
   * No timer is ever cancelled: the pending timers afterwards number exactly those
   * pending before, plus one per opening, minus one per timer that fired. Closing
   * (by the button) and re-keying leave every earlier timer pending.
   */
  lemma {:induction false} TimersOnlyLeaveByFiring(m: Message, es: seq<Input>)
    ensures |Run(m, es).0.timers| + Firings(m, es) == |m.timers| + Openings(m, es)
    decreases |es|
  {
    if es != [] && Enabled(m, es[0]) {
      var r := Step(m, es[0]);
      TimersOnlyLeaveByFiring(r.after, es[1..]);
      if r.reported == Some(true) {
        assert |r.after.timers| == |m.timers| + 1;
      } else if !es[0].TimeoutFired? {
        assert r.after.timers == m.timers;
      }
    }
  }

  /** One mounted SnackbarSuccessMessage or SnackbarAlertMessage. */
  class SnackbarMessage {
    const kind: Kind
    var message: string
    var messageKey: int
    var hideAfterSeconds: real
    var open: bool
    var timers: seq<Timer>

    function Model(): Message
      reads this
    {
      Message(kind, message, messageKey, hideAfterSeconds, open, timers)
    }

    /** The first render, before the open effect runs. */
    constructor (kind: Kind, message: string, messageKey: int, hideAfterSeconds: Option<real>)
      ensures Model() == Mounted(kind, message, messageKey, hideAfterSeconds)
      ensures !open && View(Model()).None?
    {
      this.kind := kind;
      this.message := message;
      this.messageKey := messageKey;
      this.hideAfterSeconds := hideAfterSeconds.GetOr(DefaultHideAfterSeconds);
      open := false;
      timers := [];
    }

    /** The effect on [message, messageKey]; returns the isVisible call it makes, if any. */
    method Effect() returns (reported: Option<bool>)
      modifies this
      ensures Reaction(Model(), reported) == OpenEffect(old(Model()))
    {
      reported := None;
      if !Truthy(message) {
        return;
      }
      open := true;
      reported := Some(true);
      timers := timers + [Timer(messageKey, hideAfterSeconds * 1000.0)];
    }

    /** A re-render by the parent with possibly new `message` and `messageKey`. */
    method Rerender(message: string, messageKey: int) returns (reported: Option<bool>)
      modifies this
      ensures Reaction(Model(), reported) == Rerendered(old(Model()), message, messageKey)
    {
      reported := None;
      if message != this.message || messageKey != this.messageKey {
        this.message := message;
        this.messageKey := messageKey;
        reported := Effect();
      }
    }

    /** handleClose, as the close button calls it. */
    method HandleClose() returns (reported: bool)
      modifies this
      ensures Reaction(Model(), Some(reported)) == Closed(old(Model()))
    {
      open := false;
      reported := false;
    }

    /** Pending timer i fires and calls handleClose. */
    method TimerFires(i: nat) returns (reported: bool)
      requires i < |timers|
      modifies this
      ensures Reaction(Model(), Some(reported)) == Expire(old(Model()), i)
    {
      timers := RemoveAt(timers, i);
      reported := HandleClose();
    }
  }
}
