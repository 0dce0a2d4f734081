/**
 * The lead-capture modal of the default landing page: the one-shot scroll trigger
 * that reveals it, gated by a flag kept in the browser's key/value storage; the
 * closing animation; and the guide form inside it. Timers are explicit tick events:
 * each kind of timer is a count of timers scheduled and not yet fired, and a tick
 * fires one of them.
 */
module GuideModal {
  import opened Text
  import opened EmailPattern

  const FlagKey := "guideModalShown"

  /** `localStorage.getItem('guideModalShown') === 'true'` */
  predicate FlagSet(storage: map<string, string>)
    ensures FlagSet(storage) ==> FlagKey in storage
  {
    FlagKey in storage && storage[FlagKey] == "true"
  }

  /**
   * `scrollPercentage >= 30`, where the percentage is `scrollY / height * 100` for
   * `height = documentHeight - viewportHeight`, and 0 when that height is not positive.
   * Cross-multiplied, so no division and no floating point.
   */
  predicate PastThreshold(scrollY: int, documentHeight: int, viewportHeight: int)
    ensures PastThreshold(scrollY, documentHeight, viewportHeight) ==> documentHeight > viewportHeight && scrollY > 0
  {
    var height := documentHeight - viewportHeight;
    height > 0 && scrollY * 100 >= 30 * height
  }

  /** Whether the flag is set depends on its own key only. */
  lemma FlagIgnoresOtherKeys(storage: map<string, string>, key: string, value: string)
    requires key != FlagKey
    ensures FlagSet(storage[key := value]) <==> FlagSet(storage)
  {
  }

  /** Scrolling further down never leaves the region past the threshold. */
  lemma ThresholdMonotone(scrollY: int, laterY: int, documentHeight: int, viewportHeight: int)
    requires scrollY <= laterY && PastThreshold(scrollY, documentHeight, viewportHeight)
    ensures PastThreshold(laterY, documentHeight, viewportHeight)
  {
  }

  /** What `handleScroll` reads and writes: the storage and its two closure variables. */
  datatype Observer = Observer(storage: map<string, string>, lastScrollY: int, triggered: bool)

  /** The observer after one event, and whether that event fired the trigger. */
  datatype Step = Step(next: Observer, fired: bool)

  /**
   * One call of `handleScroll`. It fires exactly when the flag is not set, the latch is
   * open, the move is strictly downward and the threshold is reached; firing closes the
   * latch and records the flag. The previous position is updated unless the flag or
   * the latch made the handler return first.
   */
  function OnScroll(o: Observer, scrollY: int, documentHeight: int, viewportHeight: int): (r: Step)
    ensures r.fired <==>
      !FlagSet(o.storage) && !o.triggered && scrollY > o.lastScrollY && PastThreshold(scrollY, documentHeight, viewportHeight)
    ensures r.fired ==> r.next == Observer(o.storage[FlagKey := "true"], scrollY, true) && FlagSet(r.next.storage)
    ensures !r.fired ==> r.next.storage == o.storage && r.next.triggered == o.triggered
    ensures r.next.lastScrollY == if FlagSet(o.storage) || o.triggered then o.lastScrollY else scrollY
  {
    if FlagSet(o.storage) || o.triggered then Step(o, false)
    else
      var isScrollingDown := scrollY > o.lastScrollY;
      var o' := o.(lastScrollY := scrollY);
      if !isScrollingDown then Step(o', false)
      else if PastThreshold(scrollY, documentHeight, viewportHeight) then
        Step(o'.(triggered := true, storage := o.storage[FlagKey := "true"]), true)
      else Step(o', false)
  }

  /** What can happen to the observer: a scroll event, or a write to the storage by someone else. */
  datatype Event =
    | Scrolled(scrollY: int, documentHeight: int, viewportHeight: int)
    | StorageWritten(key: string, value: string)

  function After(o: Observer, e: Event): Step
  {
    match e
    case Scrolled(y, documentHeight, viewportHeight) => OnScroll(o, y, documentHeight, viewportHeight)
    case StorageWritten(key, value) => Step(o.(storage := o.storage[key := value]), false)
  }

  /** How many of the events fire the trigger. */
  function Fires(o: Observer, events: seq<Event>): nat
    decreases |events|
  {
    if events == [] then 0
    else
      var s := After(o, events[0]);
      (if s.fired then 1 else 0) + Fires(s.next, events[1..])
  }

  /** Whatever the events, the latch lets the trigger fire at most once, and never once it is closed. */
  lemma {:induction false} FiresAtMostOnce(o: Observer, events: seq<Event>)
    ensures Fires(o, events) <= 1
    ensures o.triggered ==> Fires(o, events) == 0
    decreases |events|
  {
    if events != [] {
      var s := After(o, events[0]);
      FiresAtMostOnce(s.next, events[1..]);
      if s.fired {
        assert s.next.triggered;
      } else {
        assert o.triggered ==> s.next.triggered;
      }
    }
  }

  predicate NoStorageWrites(events: seq<Event>)
  {
    forall i :: 0 <= i < |events| ==> events[i].Scrolled?
  }

  /** While nobody else writes the storage, a flag that is set keeps the trigger silent. */
  lemma {:induction false} FlagSilences(o: Observer, events: seq<Event>)
    requires FlagSet(o.storage) && NoStorageWrites(events)
    ensures Fires(o, events) == 0
    decreases |events|
  {
    if events != [] {
      assert events[0].Scrolled?;
      var s := After(o, events[0]);
      assert s.next.storage == o.storage;
      assert NoStorageWrites(events[1..]) by {
        forall i | 0 <= i < |events[1..]| ensures events[1..][i].Scrolled? {
          assert events[1..][i] == events[i + 1];
        }
      }
      FlagSilences(s.next, events[1..]);
    }
  }

  /** A move that is not strictly downward never fires, whatever the position. */
  lemma UpwardNeverFires(o: Observer, scrollY: int, documentHeight: int, viewportHeight: int)
    requires scrollY <= o.lastScrollY
    ensures !OnScroll(o, scrollY, documentHeight, viewportHeight).fired
  {
  }

  /**
   * The scroll part of the component: the storage, whether the effect installed its
   * handler, the startup timer, the listener, and the handler's closure variables.
   */
  class ScrollTrigger {
    var storage: map<string, string>
    var observing: bool
    var startupPending: bool
    var listening: bool
    var lastScrollY: int
    var triggered: bool

    ghost predicate Valid()
      reads this
    {
      (startupPending ==> observing) && (listening ==> observing)
    }

    ghost function State(): Observer
      reads this
    {
      Observer(storage, lastScrollY, triggered)
    }

    constructor (initialStorage: map<string, string>)
      ensures Valid() && storage == initialStorage
      ensures !observing && !startupPending && !listening
    {
      storage := initialStorage;
      observing, startupPending, listening := false, false, false;
      lastScrollY, triggered := 0, false;
    }

    /**
     * The effect run on mount: with the flag set it does nothing; otherwise it opens
     * the latch, remembers the position and schedules the startup timer.
     */
    method Mount(scrollY: int)
      requires Valid() && !observing
      modifies this`observing, this`startupPending, this`lastScrollY, this`triggered
      ensures Valid()
      ensures observing <==> !FlagSet(storage)
      ensures observing ==> startupPending && lastScrollY == scrollY && !triggered
      ensures !observing ==> startupPending == old(startupPending) && State() == old(State())
    {
      if FlagSet(storage) {
        return;
      }
      lastScrollY := scrollY;
      triggered := false;
      startupPending := true;
      observing := true;
    }

    /** `handleScroll`, thinking in terms of `OnScroll`. */
    method HandleScroll(scrollY: int, documentHeight: int, viewportHeight: int) returns (fired: bool)
      modifies this`storage, this`lastScrollY, this`triggered
      ensures Step(State(), fired) == OnScroll(old(State()), scrollY, documentHeight, viewportHeight)
    {
      fired := false;
      if FlagKey in storage && storage[FlagKey] == "true" {
        return;
      }
      if triggered {
        return;
      }
      var currentScrollY := scrollY;
      var isScrollingDown := currentScrollY > lastScrollY;
      lastScrollY := currentScrollY;
      if !isScrollingDown {
        return;
      }
      if PastThreshold(currentScrollY, documentHeight, viewportHeight) {
        triggered := true;
        storage := storage[FlagKey := "true"];
        fired := true;
      }
    }

    /** The 100 ms startup timer: registers the listener and runs the handler once. */
    method StartupTick(scrollY: int, documentHeight: int, viewportHeight: int) returns (fired: bool)
      requires Valid()
      modifies this
      ensures Valid() && observing == old(observing) && !startupPending
      ensures listening == (old(listening) || old(startupPending))
      ensures old(startupPending) ==> Step(State(), fired) == OnScroll(old(State()), scrollY, documentHeight, viewportHeight)
      ensures !old(startupPending) ==> !fired && State() == old(State())
    {
      fired := false;
      if startupPending {
        startupPending := false;
        listening := true;
        fired := HandleScroll(scrollY, documentHeight, viewportHeight);
      }
    }

    /** A `scroll` event on the window: only a registered listener sees it. */
    method Scroll(scrollY: int, documentHeight: int, viewportHeight: int) returns (fired: bool)
      requires Valid()
      modifies this`storage, this`lastScrollY, this`triggered
      ensures Valid()
      ensures listening ==> Step(State(), fired) == OnScroll(old(State()), scrollY, documentHeight, viewportHeight)
      ensures !listening ==> !fired && State() == old(State())
    {
      fired := false;
      if listening {
        fired := HandleScroll(scrollY, documentHeight, viewportHeight);
      }
    }

    /** Another writer of the storage (another tab, the developer tools). */
    method WriteStorage(key: string, value: string)
      modifies this`storage
      ensures storage == old(storage)[key := value]
    {
      storage := storage[key := value];
    }

    /** The effect's cleanup: cancels the startup timer and removes the listener. */
    method Unmount()
      requires Valid()
      modifies this`observing, this`startupPending, this`listening
      ensures Valid() && !observing && !startupPending && !listening
    {
      startupPending := false;
      listening := false;
      observing := false;
    }
  }

  /** The guide form's gate: the e-mail is not blank and the pattern accepts it, so it holds an `@`. */
  predicate GuideAccepts(email: string)
    ensures GuideAccepts(email) ==> '@' in email && 5 <= |email| && !AllSpace(email)
  {
    !IsBlank(email) && Matches(email)
  }

  /** The guide form accepts exactly the addresses of the e-mail shape; its blank test adds nothing to the pattern. */
  lemma GuideAcceptsIffShape(email: string)
    ensures GuideAccepts(email) <==> EmailShape(email)
    ensures GuideAccepts(email) <==> Matches(email)
  {
    GateIffShape(email);
    MatchesIffShape(email);
  }

  /** The modal's visibility and closing flags, the guide form, and their timers. */
  class GuideModal {
    var revealPending: nat
    var showGuideModal: bool
    var isModalClosing: bool
    var closePending: nat
    var guideEmail: string
    var guideSubmitting: bool
    var guideSubmitted: bool
    var guideDelayPending: nat
    var guideResetPending: nat

    /** No transient flag is left on without a pending timer that will turn it off. */
    ghost predicate Valid()
      reads this
    {
      (isModalClosing ==> closePending > 0)
      && (guideSubmitting ==> guideDelayPending > 0)
      && (guideSubmitted ==> guideResetPending > 0)
    }

    constructor ()
      ensures Valid()
      ensures revealPending == 0 && !showGuideModal && !isModalClosing && closePending == 0
      ensures guideEmail == "" && !guideSubmitting && !guideSubmitted
      ensures guideDelayPending == 0 && guideResetPending == 0
    {
      revealPending, showGuideModal, isModalClosing, closePending := 0, false, false, 0;
      guideEmail, guideSubmitting, guideSubmitted := "", false, false;
      guideDelayPending, guideResetPending := 0, 0;
    }

    /** The `setTimeout(..., 100)` a firing trigger schedules. */
    method ScheduleReveal()
      requires Valid()
      modifies this`revealPending
      ensures Valid() && revealPending == old(revealPending) + 1
    {
      revealPending := revealPending + 1;
    }

    /** That timer firing: the modal becomes visible. */
    method RevealTick()
      requires Valid()
      modifies this`revealPending, this`showGuideModal
      ensures Valid()
      ensures old(revealPending) > 0 ==> showGuideModal && revealPending == old(revealPending) - 1
      ensures old(revealPending) == 0 ==> showGuideModal == old(showGuideModal) && revealPending == 0
    {
      if revealPending > 0 {
        revealPending := revealPending - 1;
        showGuideModal := true;
      }
    }

    /** `closeModal`: starts the closing animation and schedules the 300 ms close. */
    method CloseModal()
      requires Valid()
      modifies this`isModalClosing, this`closePending
      ensures Valid() && isModalClosing && closePending == old(closePending) + 1
    {
      isModalClosing := true;
      closePending := closePending + 1;
    }

    /** The 300 ms timer: the modal is hidden and no longer closing. */
    method CloseTick()
      requires Valid()
      modifies this`closePending, this`showGuideModal, this`isModalClosing
      ensures Valid()
      ensures old(closePending) > 0 ==> !showGuideModal && !isModalClosing && closePending == old(closePending) - 1
      ensures old(closePending) == 0 ==> !isModalClosing && showGuideModal == old(showGuideModal) && closePending == 0
    {
      if closePending > 0 {
        closePending := closePending - 1;
        showGuideModal := false;
        isModalClosing := false;
      }
    }

    /** The e-mail input's `onChange`. */
    method EditGuideEmail(value: string)
      requires Valid()
      modifies this`guideEmail
      ensures Valid() && guideEmail == value
    {
      guideEmail := value;
    }

    /**
     * `handleGuideSubmit` up to its `await`: an e-mail the gate refuses (by
     * `GuideAcceptsIffShape`, one without the e-mail shape) is ignored; otherwise the form is pending and the simulated request is under way.
     */
    method GuideSubmit() returns (accepted: bool)
      requires Valid()
      modifies this`guideSubmitting, this`guideDelayPending
      ensures Valid()
      ensures accepted <==> GuideAccepts(guideEmail)
      ensures accepted ==> guideSubmitting && guideDelayPending == old(guideDelayPending) + 1
      ensures !accepted ==> guideSubmitting == old(guideSubmitting) && guideDelayPending == old(guideDelayPending)
    {
      if !GuideAccepts(guideEmail) {
        return false;
      }
      accepted := true;
      guideSubmitting := true;
      guideDelayPending := guideDelayPending + 1;
    }

    /** The simulated 1000 ms request ends: submitted, the 2000 ms reset scheduled, no longer pending. */
    method GuideDelayTick()
      requires Valid()
      modifies this`guideDelayPending, this`guideSubmitted, this`guideResetPending, this`guideSubmitting
      ensures Valid()
      ensures old(guideDelayPending) > 0 ==>
        guideSubmitted && !guideSubmitting && guideDelayPending == old(guideDelayPending) - 1
        && guideResetPending == old(guideResetPending) + 1
      ensures old(guideDelayPending) == 0 ==>
        guideSubmitted == old(guideSubmitted) && guideSubmitting == old(guideSubmitting)
        && guideDelayPending == 0 && guideResetPending == old(guideResetPending)
    {
      if guideDelayPending > 0 {
        guideDelayPending := guideDelayPending - 1;
        guideSubmitted := true;
        guideResetPending := guideResetPending + 1;
        guideSubmitting := false;
      }
    }

    /** The 2000 ms reset: closes the modal and empties the form. */
    method GuideResetTick()
      requires Valid()
      modifies this`guideResetPending, this`isModalClosing, this`closePending, this`guideEmail, this`guideSubmitted
      ensures Valid()
      ensures old(guideResetPending) > 0 ==>
        isModalClosing && closePending == old(closePending) + 1 && guideEmail == "" && !guideSubmitted
        && guideResetPending == old(guideResetPending) - 1
      ensures old(guideResetPending) == 0 ==>
        isModalClosing == old(isModalClosing) && closePending == old(closePending)
        && guideEmail == old(guideEmail) && guideSubmitted == old(guideSubmitted) && guideResetPending == 0
    {
      if guideResetPending > 0 {
        CloseModal();
        guideEmail := "";
        guideSubmitted := false;
        guideResetPending := guideResetPending - 1;
      }
    }
  }

  /** The default page's wiring of the two: a firing scroll event schedules the reveal. */
  class LandingPage {
    const trigger: ScrollTrigger
    const modal: GuideModal

    ghost predicate Valid()
      reads this, trigger, modal
    {
      trigger.Valid() && modal.Valid()
    }

    constructor (initialStorage: map<string, string>)
      ensures Valid() && fresh(trigger) && fresh(modal)
      ensures trigger.storage == initialStorage && !trigger.observing
      ensures !modal.showGuideModal && modal.revealPending == 0
    {
      trigger := new ScrollTrigger(initialStorage);
      modal := new GuideModal();
    }

    /**
     * The effect run on mount, as `ScrollTrigger.Mount`; the modal is not touched.
     */
    method Mount(scrollY: int)
      requires Valid() && !trigger.observing
      modifies trigger`observing, trigger`startupPending, trigger`lastScrollY, trigger`triggered
      ensures Valid()
      ensures trigger.observing <==> !FlagSet(trigger.storage)
      ensures trigger.observing ==> trigger.startupPending && trigger.lastScrollY == scrollY && !trigger.triggered
      ensures !trigger.observing ==>
        trigger.startupPending == old(trigger.startupPending) && trigger.State() == old(trigger.State())
    {
      trigger.Mount(scrollY);
    }

    /**
     * The startup timer: its own call of the handler can fire, and a firing schedules
     * the reveal just as a scroll event's does, after the flag is written.
     */
    method StartupTick(scrollY: int, documentHeight: int, viewportHeight: int) returns (fired: bool)
      requires Valid()
      modifies trigger, modal`revealPending
      ensures Valid()
      ensures fired ==> FlagSet(trigger.storage) && modal.revealPending == old(modal.revealPending) + 1
      ensures !fired ==> modal.revealPending == old(modal.revealPending)
      ensures trigger.observing == old(trigger.observing) && !trigger.startupPending
      ensures trigger.listening == (old(trigger.listening) || old(trigger.startupPending))
      ensures old(trigger.startupPending) ==>
        Step(trigger.State(), fired) == OnScroll(old(trigger.State()), scrollY, documentHeight, viewportHeight)
      ensures !old(trigger.startupPending) ==> !fired && trigger.State() == old(trigger.State())
    {
      fired := trigger.StartupTick(scrollY, documentHeight, viewportHeight);
      if fired {
        modal.ScheduleReveal();
      }
    }

    /**
     * A scroll event: when it fires, the flag is already recorded by the time the
     * reveal is scheduled, and exactly one reveal is scheduled. Only the observer and
     * the count of pending reveals can change.
     */
    method Scroll(scrollY: int, documentHeight: int, viewportHeight: int) returns (fired: bool)
      requires Valid()
      modifies trigger`storage, trigger`lastScrollY, trigger`triggered, modal`revealPending
      ensures Valid()
      ensures fired ==> FlagSet(trigger.storage) && modal.revealPending == old(modal.revealPending) + 1
      ensures !fired ==> modal.revealPending == old(modal.revealPending)
      ensures trigger.listening ==>
        Step(trigger.State(), fired) == OnScroll(old(trigger.State()), scrollY, documentHeight, viewportHeight)
      ensures !trigger.listening ==> !fired && trigger.State() == old(trigger.State())
    {
      fired := trigger.Scroll(scrollY, documentHeight, viewportHeight);
      if fired {
        modal.ScheduleReveal();
      }
    }

    /** The effect's cleanup, as `ScrollTrigger.Unmount`; timers of the modal are not cancelled. */
    method Unmount()
      requires Valid()
      modifies trigger`observing, trigger`startupPending, trigger`listening
      ensures Valid() && !trigger.observing && !trigger.startupPending && !trigger.listening
    {
      trigger.Unmount();
    }
  }
}
