/**
 * StaticSuccessMessage.jsx and StaticAlertMessage.jsx: an inline message that hides itself
 * after `renderForSeconds`. The two components are the same code except for the severity
 * they draw. Unlike the snackbar components, the effect returns a cleanup that cancels its
 * timer, so at most one timer is pending and it always belongs to the current props.
 */
module StaticMessages {
  import opened Wrappers
  import SnackbarMessages

  const DefaultRenderForSeconds: real := 10.0

  /** The pending setTimeout: the props it was started for and its delay. */
  datatype HideTimer = HideTimer(message: string, messageKey: int, delayMs: real)

  /** A mounted instance: its props, its `shouldRender` cell and its pending timer, if any. */
  datatype Static = Static(kind: SnackbarMessages.Kind, message: string, messageKey: int, renderForSeconds: real,
                           shouldRender: bool, timer: Option<HideTimer>)

  /** The effect on [messageKey, message]: show, and start a timer for the current props. */
  function ShowEffect(s: Static): Static {
    s.(shouldRender := true, timer := Some(HideTimer(s.message, s.messageKey, s.renderForSeconds * 1000.0)))
  }

  /** Mount: `shouldRender` starts true, `renderForSeconds` defaults to 10, and the effect runs. */
  function Mounted(kind: SnackbarMessages.Kind, message: string, messageKey: int, renderForSeconds: Option<real>): Static {
    ShowEffect(Static(kind, message, messageKey, renderForSeconds.GetOr(DefaultRenderForSeconds), true, None))
  }

  /** New props: if `message` or `messageKey` changed, the cleanup cancels the timer and the effect runs again. */
  function Rerendered(s: Static, message: string, messageKey: int): Static {
    if message == s.message && messageKey == s.messageKey then s
    else ShowEffect(s.(message := message, messageKey := messageKey, timer := None))
  }

  /** The pending timer fires: hide. */
  function Expired(s: Static): Static
    requires s.timer.Some?
  {
    s.(shouldRender := false, timer := None)
  }

  /** What the component draws: the alert with its severity and text, or nothing (null). */
  function View(s: Static): (r: Option<(string, string)>)
    ensures r.None? <==> !s.shouldRender
    ensures r.Some? ==> r.value == (SnackbarMessages.Severity(s.kind), s.message)
  {
    if !s.shouldRender then None else Some((SnackbarMessages.Severity(s.kind), s.message))
  }

  /** The pending timer, if any, was started for the current props with the configured delay. */
  predicate TimerIsCurrent(s: Static) {
    s.timer.Some? ==>
      s.timer.value == HideTimer(s.message, s.messageKey, s.renderForSeconds * 1000.0)
  }

  datatype Input = Props(message: string, messageKey: int) | TimerFires

  predicate Enabled(s: Static, e: Input) {
    e.TimerFires? ==> s.timer.Some?
  }

  function Step(s: Static, e: Input): Static
    requires Enabled(s, e)
  {
    match e
    case Props(message, key) => Rerendered(s, message, key)
    case TimerFires => Expired(s)
  }

  /** Runs the inputs that can happen, in order (a timer can fire only while one is pending). */
  function Run(s: Static, es: seq<Input>): Static
    decreases |es|
  {
    if es == [] then s
    else Run(if Enabled(s, es[0]) then Step(s, es[0]) else s, es[1..])
  }

  /**
   * Re-keying cancels the previous timer: after any inputs, the only pending timer is one
   * started for the current props, so a timer started for earlier props never hides a newer
   * message; and a new message or key always shows.
   */
  lemma {:induction false} TimerAlwaysCurrent(s: Static, es: seq<Input>)
    requires TimerIsCurrent(s)
    ensures TimerIsCurrent(Run(s, es))
    decreases |es|
  {
    if es != [] {
      var s' := if Enabled(s, es[0]) then Step(s, es[0]) else s;
      assert TimerIsCurrent(s');
      TimerAlwaysCurrent(s', es[1..]);
    }
  }

  /**
   * The message is hidden only by its own timer: a step that hides a shown message is a
   * timer firing, and that timer was started for the props now shown; a step with new
   * props shows the message.
   */
  lemma HiddenOnlyByOwnTimer(s: Static, e: Input)
    requires TimerIsCurrent(s) && Enabled(s, e)
    ensures s.shouldRender && !Step(s, e).shouldRender ==>
              e.TimerFires? && s.timer == Some(HideTimer(s.message, s.messageKey, s.renderForSeconds * 1000.0))
    ensures e.Props? && (e.message != s.message || e.messageKey != s.messageKey) ==> Step(s, e).shouldRender
  {
  }

  /** One mounted StaticSuccessMessage or StaticAlertMessage. */
  class StaticMessage {
    const kind: SnackbarMessages.Kind
    var message: string
    var messageKey: int
    var renderForSeconds: real
    var shouldRender: bool
    var timer: Option<HideTimer>

    function Model(): Static
      reads this
    {
      Static(kind, message, messageKey, renderForSeconds, shouldRender, timer)
    }

    /** Mount, including the first run of the effect. */
    constructor (kind: SnackbarMessages.Kind, message: string, messageKey: int, renderForSeconds: Option<real>)
      ensures Model() == Mounted(kind, message, messageKey, renderForSeconds)
      ensures TimerIsCurrent(Model()) && shouldRender
    {
      this.kind := kind;
      this.message := message;
      this.messageKey := messageKey;
      var seconds := renderForSeconds.GetOr(DefaultRenderForSeconds);
      this.renderForSeconds := seconds;
      shouldRender := true;
      timer := Some(HideTimer(message, messageKey, seconds * 1000.0));
    }

    method Rerender(message: string, messageKey: int)
      requires TimerIsCurrent(Model())
      modifies this
      ensures Model() == Rerendered(old(Model()), message, messageKey)
      ensures TimerIsCurrent(Model())
    {
      if message != this.message || messageKey != this.messageKey {
        timer := None;
        this.message := message;
        this.messageKey := messageKey;
        shouldRender := true;
        timer := Some(HideTimer(message, messageKey, renderForSeconds * 1000.0));
      }
    }

    method TimerFires()
      requires timer.Some?
      modifies this
      ensures Model() == Expired(old(Model()))
      ensures !shouldRender && TimerIsCurrent(Model())
    {
      shouldRender := false;
      timer := None;
    }

    function Rendered(): Option<(string, string)>
      reads this
    {
      View(Model())
    }
  }
}
