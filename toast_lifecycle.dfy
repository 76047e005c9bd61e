/**
 * The toast provider together with the toast instances it mounts
 * (globalFeedbackSnackbarProvider.js:211-218 rendering SnackbarSuccessMessage /
 * SnackbarAlertMessage). Each promoted toast gets a fresh component instance, since the
 * slot is always emptied (and the instance unmounted) before the next toast is promoted.
 * An instance's timers outlive it: the open effect never cancels them, and a timer that
 * fires after its instance was unmounted still calls `isVisible(false)` on the provider.
 * Timer expiry is an explicit action naming the instance and the timer.
 */
module ToastLifecycle {
  import opened Wrappers
  import opened ItemScheduler
  import opened SnackbarMessages
  import opened SnackbarProvider

  /** The provider's cells, every instance ever mounted (with its pending timers), and the one mounted now. */
  datatype System = System(provider: Provider, instances: seq<Message>, mounted: Option<nat>)

  function Start(): System {
    System(Initial(), [], None)
  }

  /** A producer's call, a pending timer firing, or the close button of the mounted toast. */
  datatype Action = Call(e: Event) | TimerExpires(instance: nat, timer: nat) | CloseClicked

  predicate Enabled(s: System, a: Action) {
    match a
    case Call(e) => !e.IsVisible?
    case TimerExpires(i, t) => i < |s.instances| && t < |s.instances[i].timers|
    case CloseClicked => s.mounted.Some? && s.mounted.value < |s.instances| && s.instances[s.mounted.value].open
  }

  /** The instances after the action's own effect on the component that receives it. */
  function Touched(s: System, a: Action): (r: seq<Message>)
    requires Enabled(s, a)
    ensures |r| == |s.instances|
    ensures forall i :: 0 <= i < |s.instances| && !Receives(s, a, i) ==> r[i] == s.instances[i]
    ensures a.TimerExpires? ==> r[a.instance] == Expire(s.instances[a.instance], a.timer).after
  {
    match a
    case Call(_) => s.instances
    case TimerExpires(i, t) => s.instances[i := Expire(s.instances[i], t).after]
    case CloseClicked => s.instances[s.mounted.value := Closed(s.instances[s.mounted.value]).after]
  }

  /** Whether instance i is the component that receives the action: the timer's owner, or the mounted toast for its close button. */
  predicate Receives(s: System, a: Action, i: nat) {
    (a.TimerExpires? && a.instance == i) || (a.CloseClicked? && s.mounted == Some(i))
  }

  /** The provider entry point the action reaches: the call itself, or the component's isVisible(false). */
  function Reached(a: Action): Event {
    match a
    case Call(e) => e
    case _ => IsVisible(false)
  }

  /** With the slot filled and nothing mounted, mount a fresh instance of the current toast and run its open effect. */
  function MountCurrent(s: System): (r: System)
    ensures s.mounted.Some? || s.provider.sched.current.None? ==> r == s
    ensures s.mounted.None? && s.provider.sched.current.Some? ==> |r.instances| == |s.instances| + 1
    ensures s.mounted.None? && s.provider.sched.current.Some? ==>
              var t := s.provider.sched.current.value;
              var m := r.instances[|s.instances|];
              && r.instances[..|s.instances|] == s.instances
              && r.mounted == Some(|s.instances|)
              && m.kind == t.component && m.message == t.message && m.messageKey == t.key
              && m.hideAfterSeconds == t.duration as real / 1000.0
              && (m.open <==> Truthy(t.message))
              && m.timers == (if Truthy(t.message) then [Timer(t.key, t.duration as real)] else [])
              && r.provider == (if Truthy(t.message) then Handle(s.provider, IsVisible(true)) else s.provider)
  {
    if s.mounted.Some? || s.provider.sched.current.None? then s
    else
      var mnt := Rendered(s.provider.sched.current).value;
      var r := OpenEffect(Mounted(mnt.component, mnt.message, mnt.messageKey, Some(mnt.hideAfterSeconds)));
      System(if r.reported.Some? then Handle(s.provider, IsVisible(r.reported.value)) else s.provider,
             s.instances + [r.after], Some(|s.instances|))
  }

  /**
   * One action and everything it sets off: the provider's effects, the unmounting of the
   * toast whose slot was emptied, the mounting of the promoted one. `cancelOnUnmount`
   * says whether an unmounted instance's pending timers are cancelled.
   */
  function StepWith(s: System, a: Action, cancelOnUnmount: bool): (r: System)
    requires Enabled(s, a)
    ensures |s.instances| <= |r.instances| <= |s.instances| + 1
    ensures r.provider.sched == Handle(s.provider, Reached(a)).sched
    ensures r.provider.visible ==
              (if |r.instances| > |s.instances| && r.instances[|s.instances|].open then true
               else Handle(s.provider, Reached(a)).visible)
    ensures |r.instances| > |s.instances| ==>
              var t := Handle(s.provider, Reached(a)).sched.current;
              && t.Some? && r.mounted == Some(|s.instances|)
              && r.instances[|s.instances|].message == t.value.message
              && r.instances[|s.instances|].messageKey == t.value.key
              && r.instances[|s.instances|].hideAfterSeconds == t.value.duration as real / 1000.0
    ensures forall i :: 0 <= i < |s.instances| && !Receives(s, a, i) && !(cancelOnUnmount && s.mounted == Some(i)) ==>
              r.instances[i] == s.instances[i]
    ensures a.TimerExpires? && !cancelOnUnmount ==>
              r.instances[a.instance] == Expire(s.instances[a.instance], a.timer).after
    ensures cancelOnUnmount && s.mounted.Some? && s.mounted.value < |s.instances| && r.mounted != s.mounted ==>
              r.instances[s.mounted.value].timers == []
  {
    var insts := Touched(s, a);
    var e := Reached(a);
    var unmount := Clears(s.provider, e) && s.mounted.Some? && s.mounted.value < |insts|;
    var insts' := if unmount && cancelOnUnmount then insts[s.mounted.value := insts[s.mounted.value].(timers := [])]
                  else insts;
    var mid := System(Handle(s.provider, e), insts', if unmount then None else s.mounted);
    assert |mid.instances| == |s.instances|;
    MountCurrent(mid)
  }

  /** The system as written: nothing cancels a timer. */
  function Step(s: System, a: Action): (r: System)
    requires Enabled(s, a)
    ensures |s.instances| <= |r.instances|
    ensures forall i :: 0 <= i < |s.instances| && !Receives(s, a, i) ==> r.instances[i].timers == s.instances[i].timers
  {
    StepWith(s, a, false)
  }

  /** The corrected system: unmounting a toast cancels its pending timers (the cleanup StaticSuccessMessage has). */
  function StepCancelling(s: System, a: Action): (r: System)
    requires Enabled(s, a)
    ensures |s.instances| <= |r.instances|
    ensures s.mounted.Some? && s.mounted.value < |s.instances| && r.mounted != s.mounted ==>
              r.instances[s.mounted.value].timers == []
  {
    StepWith(s, a, true)
  }

  /** The mounted instance shows the current toast: same text, same key. */
  predicate Consistent(s: System) {
    && Settled(s.provider.sched)
    && (s.mounted.Some? <==> s.provider.sched.current.Some?)
    && (s.mounted.Some? ==>
          && s.mounted.value < |s.instances|
          && s.instances[s.mounted.value].messageKey == s.provider.sched.current.value.key
          && s.instances[s.mounted.value].message == s.provider.sched.current.value.message)
  }

  lemma MountKeepsConsistent(s: System)
    requires Settled(s.provider.sched)
    requires s.mounted.Some? ==> Consistent(s)
    ensures Consistent(MountCurrent(s))
  {
    if s.mounted.None? && s.provider.sched.current.Some? {
      var mnt := Rendered(s.provider.sched.current).value;
      var r := OpenEffect(Mounted(mnt.component, mnt.message, mnt.messageKey, Some(mnt.hideAfterSeconds)));
      if r.reported.Some? {
        HandleEffects(s.provider, IsVisible(r.reported.value));
      }
    }
  }

  /**
   * With or without cancellation, a component is mounted iff a toast is current, and it
   * is that toast's component: at most one toast is displayed, and it is the current one.
   */
  lemma StepKeepsConsistent(s: System, a: Action, cancelOnUnmount: bool)
    requires Consistent(s) && Enabled(s, a)
    ensures Consistent(StepWith(s, a, cancelOnUnmount))
  {
    var insts := Touched(s, a);
    var e := Reached(a);
    var unmount := Clears(s.provider, e) && s.mounted.Some? && s.mounted.value < |insts|;
    var insts' := if unmount && cancelOnUnmount then insts[s.mounted.value := insts[s.mounted.value].(timers := [])]
                  else insts;
    var mid := System(Handle(s.provider, e), insts', if unmount then None else s.mounted);
    HandleEffects(s.provider, e);
    if mid.mounted.Some? {
      assert !Clears(s.provider, e);
      assert e.Enqueue? || e.IsVisible?;
      assert Handle(s.provider, e).sched.current == s.provider.sched.current;
    }
    MountKeepsConsistent(mid);
  }

  /**
   * As written, a preempted toast's timer closes the toast that replaced it: "Saved" is
   * shown, "Upload failed" replaces it, and when the first toast's timer fires the
   * provider closes "Upload failed", whose own timer is still pending and whose close
   * button nobody clicked.
   */
  lemma StaleTimerClosesLaterToast()
    ensures
      var saved := Snackbar(Success, "Saved", 5000, 1);
      var failed := Snackbar(Alert, "Upload failed", 5000, 2);
      var s1 := Step(Start(), Call(Event.Enqueue(saved)));
      var s2 := Step(s1, Call(Event.ReplaceAndEnqueue(failed)));
      && s2.provider.sched.current == Some(failed)
      && s2.mounted == Some(1) && |s2.instances| == 2
      && s2.instances[0].timers == [Timer(1, 5000.0)]
      && Enabled(s2, TimerExpires(0, 0))
      && var s3 := Step(s2, TimerExpires(0, 0));
         && s3.provider.sched.current == None
         && s3.mounted == None
         && s3.instances[1].timers == [Timer(2, 5000.0)]
  {
    var saved := Snackbar(Success, "Saved", 5000, 1);
    var failed := Snackbar(Alert, "Upload failed", 5000, 2);
    var s1 := Step(Start(), Call(Event.Enqueue(saved)));
    var p1 := Handle(Initial(), Event.Enqueue(saved));
    assert p1 == Provider(State([], Some(saved)), false);
    assert Rendered(p1.sched.current) == Some(Mount(Success, "Saved", 1, 5.0));
    assert (5.0 as real) * 1000.0 == 5000.0;
    assert OpenEffect(Mounted(Success, "Saved", 1, Some(5.0)))
        == Reaction(Message(Success, "Saved", 1, 5.0, true, [Timer(1, 5000.0)]), Some(true));
    assert s1.provider == Provider(State([], Some(saved)), true);
    assert s1.instances == [Message(Success, "Saved", 1, 5.0, true, [Timer(1, 5000.0)])];
    var s2 := Step(s1, Call(Event.ReplaceAndEnqueue(failed)));
    assert s2.provider == Provider(State([], Some(failed)), true);
    assert s2.instances[1] == Message(Alert, "Upload failed", 2, 5.0, true, [Timer(2, 5000.0)]);
    var s3 := Step(s2, TimerExpires(0, 0));
    assert s3.provider == Provider(State([], None), false);
  }

  /** No instance but the mounted one has a pending timer. */
  predicate OnlyMountedTimers(s: System) {
    forall i :: 0 <= i < |s.instances| && s.mounted != Some(i) ==> s.instances[i].timers == []
  }

  /**
   * The corrected system's invariant: consistent; only the mounted instance has pending
   * timers, all started for the current toast's key; and while the mounted instance is
   * open or has a timer pending, the provider's flag is true, so its isVisible(false)
   * is never lost.
   */
  predicate Inv(s: System) {
    && Consistent(s)
    && OnlyMountedTimers(s)
    && (s.mounted.Some? ==>
          var m := s.instances[s.mounted.value];
          && (forall t :: t in m.timers ==> t.key == s.provider.sched.current.value.key)
          && ((m.open || m.timers != []) ==> s.provider.visible))
  }

  lemma StartInv()
    ensures Inv(Start())
  {
  }

  /** Mounting from a quiet state (nothing mounted, no timer pending) establishes the invariant. */
  lemma MountFromQuiet(s: System)
    requires Settled(s.provider.sched)
    requires s.mounted.None?
    requires forall i :: 0 <= i < |s.instances| ==> s.instances[i].timers == []
    ensures Inv(MountCurrent(s))
  {
    MountKeepsConsistent(s);
    if s.provider.sched.current.Some? {
      var mnt := Rendered(s.provider.sched.current).value;
      var r := OpenEffect(Mounted(mnt.component, mnt.message, mnt.messageKey, Some(mnt.hideAfterSeconds)));
      if r.reported.Some? {
        HandleEffects(s.provider, IsVisible(r.reported.value));
      }
      var s' := MountCurrent(s);
      assert s'.instances == s.instances + [r.after];
      forall i | 0 <= i < |s'.instances| && s'.mounted != Some(i) ensures s'.instances[i].timers == [] {
        assert s'.instances[i] == s.instances[i];
      }
    }
  }

  /** The corrected system keeps its invariant under every action. */
  lemma {:induction false} CancellingKeepsInv(s: System, a: Action)
    requires Inv(s) && Enabled(s, a)
    ensures Inv(StepCancelling(s, a))
  {
    var insts := Touched(s, a);
    var e := Reached(a);
    var unmount := Clears(s.provider, e) && s.mounted.Some? && s.mounted.value < |insts|;
    var insts' := if unmount then insts[s.mounted.value := insts[s.mounted.value].(timers := [])] else insts;
    var mid := System(Handle(s.provider, e), insts', if unmount then None else s.mounted);
    assert StepCancelling(s, a) == MountCurrent(mid);
    HandleEffects(s.provider, e);
    if a.TimerExpires? || a.CloseClicked? {
      var i := if a.TimerExpires? then a.instance else s.mounted.value;
      assert s.mounted == Some(i);
      assert s.provider.visible;
      assert unmount;
    }
    if unmount {
      forall i | 0 <= i < |insts'| ensures insts'[i].timers == [] {
        if i != s.mounted.value {
          assert insts'[i] == s.instances[i];
        }
      }
      MountFromQuiet(mid);
    } else if s.mounted.None? {
      assert mid.instances == s.instances;
      MountFromQuiet(mid);
    } else {
      assert a.Call? && e.Enqueue?;
      assert mid.instances == s.instances && mid.mounted == s.mounted;
      assert Handle(s.provider, e).sched.current == s.provider.sched.current;
      assert MountCurrent(mid) == mid;
    }
  }

  /**
   * In the corrected system a timer that fires belongs to the displayed toast: it was
   * started for the current toast's key, and firing it drops exactly that toast, the
   * pending ones staying in order.
   */
  lemma TimerClosesOnlyItsOwnToast(s: System, i: nat, t: nat)
    requires Inv(s) && Enabled(s, TimerExpires(i, t))
    ensures s.mounted == Some(i) && s.provider.sched.current.Some?
    ensures s.instances[i].timers[t].key == s.provider.sched.current.value.key
    ensures Items(StepCancelling(s, TimerExpires(i, t)).provider.sched) == s.provider.sched.queue
  {
    assert s.instances[i].timers[t] in s.instances[i].timers;
    var e := IsVisible(false);
    HandleEffects(s.provider, e);
    var insts := Touched(s, TimerExpires(i, t));
    var mid := System(Handle(s.provider, e), insts[i := insts[i].(timers := [])], None);
    if mid.provider.sched.current.Some? {
      var mnt := Rendered(mid.provider.sched.current).value;
      var r := OpenEffect(Mounted(mnt.component, mnt.message, mnt.messageKey, Some(mnt.hideAfterSeconds)));
      if r.reported.Some? {
        HandleEffects(mid.provider, IsVisible(r.reported.value));
      }
    }
  }
}
