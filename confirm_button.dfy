/**
 * A button that asks for a second click before it acts. The first click arms
 * it (its label becomes the confirmation text) and starts a 3-second timer
 * that disarms it; a click while armed performs the action and disarms it.
 *
 * Time is an input: a click happens at a given millisecond, and `Elapse`
 * runs every timer that is due at a given millisecond. Timers are never
 * cancelled, so a timer started by an earlier arming still fires.
 */
module Confirm {
  import opened Wrappers

  datatype Variant = Primary | Secondary | Ghost | Danger
  datatype Size = Small | Medium | Large

  /** The label shown while armed, unless the caller gives one. */
  const DefaultConfirmText: string := "Are you sure?"

  /** Milliseconds between arming and the timer that disarms. */
  const ResetDelay: int := 3000

  datatype Props = Props(confirmText: string, variant: Variant, size: Size)

  /** The props after their defaults: "Are you sure?", danger, small. */
  function WithDefaults(confirmText: Option<string>, variant: Option<Variant>, size: Option<Size>): (props: Props)
    ensures confirmText.Some? ==> props.confirmText == confirmText.value
    ensures confirmText.None? ==> props.confirmText == DefaultConfirmText
    ensures variant.Some? ==> props.variant == variant.value
    ensures variant.None? ==> props.variant == Danger
    ensures size.Some? ==> props.size == size.value
    ensures size.None? ==> props.size == Small
  {
    Props(confirmText.GetOr(DefaultConfirmText), variant.GetOr(Danger), size.GetOr(Small))
  }

  /** Whether the button is armed, and the due times of the timers still pending. */
  datatype State = State(confirming: bool, timers: seq<int>)

  const Initial: State := State(false, [])

  /** What a click does: the new state, and whether the action ran. */
  datatype Clicked = Clicked(next: State, confirmed: bool)

  /** A click at `now`: confirm and disarm when armed; otherwise arm and start a timer. */
  function Press(s: State, now: int): (r: Clicked)
    ensures r.confirmed <==> s.confirming
    ensures r.next.confirming <==> !s.confirming
    ensures r.confirmed ==> r.next.timers == s.timers
    ensures !r.confirmed ==> r.next.timers == s.timers + [now + ResetDelay]
  {
    if s.confirming then Clicked(State(false, s.timers), true)
    else Clicked(State(true, s.timers + [now + ResetDelay]), false)
  }

  /** The timers in `timers` due at `now`. */
  function Due(timers: seq<int>, now: int): (due: seq<int>)
    ensures forall k :: 0 <= k < |due| ==> due[k] <= now
    ensures |due| <= |timers|
  {
    if |timers| == 0 then []
    else (if timers[0] <= now then [timers[0]] else []) + Due(timers[1..], now)
  }

  /** The timers in `timers` still pending after `now`. */
  function Pending(timers: seq<int>, now: int): (pending: seq<int>)
    ensures forall k :: 0 <= k < |pending| ==> pending[k] > now
    ensures |pending| <= |timers|
  {
    if |timers| == 0 then []
    else (if timers[0] <= now then [] else [timers[0]]) + Pending(timers[1..], now)
  }

  /** Every timer is either due or pending. */
  lemma {:induction false} DueAndPendingSplit(timers: seq<int>, now: int)
    ensures |Due(timers, now)| + |Pending(timers, now)| == |timers|
  {
    if |timers| > 0 {
      DueAndPendingSplit(timers[1..], now);
    }
  }

  /** The clock reached `now`: every due timer runs, and each one disarms the button. */
  function Elapse(s: State, now: int): (next: State)
    ensures next.timers == Pending(s.timers, now)
    ensures next.confirming <==> s.confirming && |Due(s.timers, now)| == 0
  {
    State(s.confirming && |Due(s.timers, now)| == 0, Pending(s.timers, now))
  }

  /** The button is never armed without a timer that will disarm it. */
  predicate WillDisarm(s: State) {
    s.confirming ==> |s.timers| > 0
  }

  lemma PressKeepsWillDisarm(s: State, now: int)
    requires WillDisarm(s)
    ensures WillDisarm(Press(s, now).next)
  {
  }

  lemma ElapseKeepsWillDisarm(s: State, now: int)
    requires WillDisarm(s)
    ensures WillDisarm(Elapse(s, now))
  {
    DueAndPendingSplit(s.timers, now);
  }

  /** Two clicks with no timer run between them perform the action once, on the second. */
  lemma TwoClicksConfirm(now1: int, now2: int)
    ensures !Press(Initial, now1).confirmed
    ensures Press(Press(Initial, now1).next, now2).confirmed
    ensures !Press(Press(Initial, now1).next, now2).next.confirming
  {
  }

  datatype Event = Click(at: int) | Clock(now: int)

  /** The state after `events`, and how many times the action ran. */
  function Run(s: State, events: seq<Event>): (r: (State, nat))
    ensures r.1 <= Clicks(events)
    decreases |events|
  {
    if |events| == 0 then (s, 0)
    else
      match events[0]
      case Click(at) =>
        var c := Press(s, at);
        var (last, fired) := Run(c.next, events[1..]);
        (last, fired + if c.confirmed then 1 else 0)
      case Clock(now) => Run(Elapse(s, now), events[1..])
  }

  function Clicks(events: seq<Event>): (n: nat)
    ensures n <= |events|
  {
    if |events| == 0 then 0 else (if events[0].Click? then 1 else 0) + Clicks(events[1..])
  }

  /**
   * Every action costs two clicks: twice the number of actions, plus one if
   * the button ends armed, is at most the clicks plus one if it started armed.
   */
  lemma {:induction false} ActionsCostTwoClicks(s: State, events: seq<Event>)
    ensures var (last, fired) := Run(s, events);
      2 * fired + (if last.confirming then 1 else 0) <= Clicks(events) + (if s.confirming then 1 else 0)
    decreases |events|
  {
    if |events| > 0 {
      match events[0]
      case Click(at) =>
        ActionsCostTwoClicks(Press(s, at).next, events[1..]);
      case Clock(now) =>
        ActionsCostTwoClicks(Elapse(s, now), events[1..]);
    }
  }

  /**
   * As written, a timer from an earlier arming still runs: armed, confirmed
   * at 1000 and armed again at 2000, the button disarms at 3000, one second
   * after the second arming instead of three.
   */
  lemma StaleTimerCutsArmingShort()
    ensures var armedAgain := Press(Press(Press(Initial, 0).next, 1000).next, 2000).next;
      && armedAgain.confirming
      && !Elapse(armedAgain, 3000).confirming
      && 3000 < 2000 + ResetDelay
  {
    var s1 := Press(Initial, 0).next;
    assert s1.timers == [3000];
    var s3 := Press(Press(s1, 1000).next, 2000).next;
    assert s3.timers == [3000, 5000];
    assert Due(s3.timers, 3000) == [3000];
  }

  /** A click that clears the pending timer when it confirms, so only the latest arming's timer exists. */
  function PressClearing(s: State, now: int): (r: Clicked)
    ensures r.confirmed <==> s.confirming
    ensures r.confirmed ==> r.next == State(false, [])
    ensures !r.confirmed ==> r.next == State(true, s.timers + [now + ResetDelay])
  {
    if s.confirming then Clicked(State(false, []), true)
    else Clicked(State(true, s.timers + [now + ResetDelay]), false)
  }

  /** With clearing: idle means no timer, armed means exactly the timer of the latest arming. */
  predicate OneTimerPerArming(s: State) {
    if s.confirming then |s.timers| == 1 else s.timers == []
  }

  lemma PressClearingKeepsOneTimer(s: State, now: int)
    requires OneTimerPerArming(s)
    ensures OneTimerPerArming(PressClearing(s, now).next)
  {
  }

  lemma ElapseKeepsOneTimer(s: State, now: int)
    requires OneTimerPerArming(s)
    ensures OneTimerPerArming(Elapse(s, now))
  {
    DueAndPendingSplit(s.timers, now);
  }

  /**
   * With clearing, the button armed by a click at `armedAt` stays armed for
   * the full delay: the clock disarms it exactly from `armedAt + ResetDelay` on.
   */
  lemma ClearingArmsForFullDelay(s: State, armedAt: int, now: int)
    requires OneTimerPerArming(s) && !s.confirming
    ensures var armed := PressClearing(s, armedAt).next;
      && armed.confirming
      && (Elapse(armed, now).confirming <==> now < armedAt + ResetDelay)
  {
    var armed := PressClearing(s, armedAt).next;
    assert armed.timers == [armedAt + ResetDelay];
    assert Due(armed.timers[1..], now) == [];
  }

  class ConfirmButton {
    var confirming: bool
    var timers: seq<int>

    /** A button that is not armed and has no timer pending. */
    constructor ()
      ensures confirming == false && timers == []
    {
      confirming, timers := false, [];
    }

    /** The button is never armed without a timer that will disarm it. */
    predicate Valid()
      reads this
    {
      WillDisarm(State(confirming, timers))
    }

    /** The label: the confirmation text while armed, the button's own content otherwise. */
    function Label(props: Props, children: string): (shown: string)
      reads this
      ensures confirming ==> shown == props.confirmText
      ensures !confirming ==> shown == children
    {
      if confirming then props.confirmText else children
    }

    /** `handleClick` at time `now`; `confirmed` says whether `onConfirm` ran. */
    method Click(now: int) returns (confirmed: bool)
      requires Valid()
      modifies this
      ensures Valid()
      ensures Clicked(State(confirming, timers), confirmed) == Press(State(old(confirming), old(timers)), now)
    {
      if confirming {
        confirmed := true;
        confirming := false;
      } else {
        confirmed := false;
        confirming := true;
        timers := timers + [now + ResetDelay];
      }
    }

    /** The clock reached `now`: each due timer runs `setConfirming(false)`. */
    method Tick(now: int)
      requires Valid()
      modifies this
      ensures Valid()
      ensures State(confirming, timers) == Elapse(State(old(confirming), old(timers)), now)
    {
      var armed, all := confirming, timers;
      var pending: seq<int> := [];
      var fired := false;
      var i := 0;
      while i < |all|
        invariant 0 <= i <= |all|
        invariant pending == Pending(all[..i], now)
        invariant fired <==> |Due(all[..i], now)| > 0
      {
        DueSnoc(all[..i], all[i], now);
        PendingSnoc(all[..i], all[i], now);
        assert all[..i + 1] == all[..i] + [all[i]];
        if all[i] <= now {
          fired := true;
        } else {
          pending := pending + [all[i]];
        }
        i := i + 1;
      }
      assert all[..i] == all;
      ElapseKeepsWillDisarm(State(armed, all), now);
      confirming := armed && !fired;
      timers := pending;
    }
  }

  /** One more timer is due exactly when it has come due. */
  lemma {:induction false} DueSnoc(timers: seq<int>, t: int, now: int)
    ensures Due(timers + [t], now) == Due(timers, now) + (if t <= now then [t] else [])
  {
    if |timers| == 0 {
      assert timers + [t] == [t];
    } else {
      assert (timers + [t])[1..] == timers[1..] + [t];
      DueSnoc(timers[1..], t, now);
    }
  }

  /** One more timer is pending exactly when it has not come due. */
  lemma {:induction false} PendingSnoc(timers: seq<int>, t: int, now: int)
    ensures Pending(timers + [t], now) == Pending(timers, now) + (if t <= now then [] else [t])
  {
    if |timers| == 0 {
      assert timers + [t] == [t];
    } else {
      assert (timers + [t])[1..] == timers[1..] + [t];
      PendingSnoc(timers[1..], t, now);
    }
  }
}
