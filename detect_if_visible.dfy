/**
 * DetectIfVisible: a one-shot scroll trigger. It registers a scroll
 * listener; the first scroll event at which the element's top lies more
 * than 100 pixels above the bottom of the window removes the listener and
 * then calls the callback. Later scrolls reach nothing.
 */
module DetectIfVisible {

  /** What the trigger does to the window and the page, in order. */
  datatype Effect = AddScrollListener | RemoveScrollListener | CallBack

  /** The test in checkIfVisible: rect.y < window.innerHeight - 100. */
  predicate Visible(rectY: real, innerHeight: real) {
    rectY < innerHeight - 100.0
  }

  /** How many times `e` occurs in a log. */
  function Count(log: seq<Effect>, e: Effect): (n: nat)
    ensures n <= |log|
    ensures e !in log ==> n == 0
  {
    if log == [] then 0 else (if log[0] == e then 1 else 0) + Count(log[1..], e)
  }

  class Trigger {
    /** Whether the bound checkIfVisible is still a scroll listener. */
    var registered: bool
    /** Everything the trigger has done so far. */
    var log: seq<Effect>

    /** Listening and nothing else done, or unregistered after the one callback. */
    ghost predicate Valid()
      reads this
    {
      || (registered && log == [AddScrollListener])
      || (!registered && log == [AddScrollListener, RemoveScrollListener, CallBack])
    }

    /** The constructor registers exactly one scroll listener. */
    constructor ()
      ensures Valid() && registered && log == [AddScrollListener]
    {
      registered := true;
      log := [AddScrollListener];
    }

    /**
     * checkIfVisible, as the registered listener: when the element is high
     * enough, the listener is removed and then the callback runs; otherwise
     * nothing changes.
     */
    method CheckIfVisible(rectY: real, innerHeight: real) returns (fired: bool)
      requires Valid() && registered
      modifies this
      ensures Valid()
      ensures fired == Visible(rectY, innerHeight)
      ensures fired ==> !registered && log == old(log) + [RemoveScrollListener, CallBack]
      ensures !fired ==> registered && log == old(log)
    {
      fired := rectY < innerHeight - 100.0;
      if fired {
        registered := false;
        log := log + [RemoveScrollListener];
        log := log + [CallBack];
      }
    }

    /** A scroll event: it reaches checkIfVisible only while the listener is registered. */
    method OnScroll(rectY: real, innerHeight: real) returns (fired: bool)
      requires Valid()
      modifies this
      ensures Valid()
      ensures fired == (old(registered) && Visible(rectY, innerHeight))
      ensures !fired ==> registered == old(registered) && log == old(log)
      ensures Count(log, CallBack) == Count(old(log), CallBack) + (if fired then 1 else 0)
    {
      fired := false;
      if registered {
        fired := CheckIfVisible(rectY, innerHeight);
      }
      LogCounts();
    }
  }

  /** The callback count of a valid trigger: none while listening, exactly one afterwards. */
  lemma CallbackCount(t: Trigger)
    requires t.Valid()
    ensures Count(t.log, CallBack) == (if t.registered then 0 else 1)
  {
    LogCounts();
  }

  /** The callback counts of the two logs a valid trigger can have. */
  lemma LogCounts()
    ensures Count([AddScrollListener], CallBack) == 0
    ensures Count([AddScrollListener, RemoveScrollListener, CallBack], CallBack) == 1
  {
    var log := [AddScrollListener, RemoveScrollListener, CallBack];
    assert log[1..] == [RemoveScrollListener, CallBack];
    assert log[1..][1..] == [CallBack];
    assert [CallBack][1..] == [];
  }

  /**
   * Over any sequence of scroll events the callback runs at most once, at
   * the first event where the element is visible.
   */
  method ScrollMany(t: Trigger, rectYs: seq<real>, innerHeights: seq<real>) returns (firedAt: int)
    requires t.Valid() && t.registered && |rectYs| == |innerHeights|
    modifies t
    ensures t.Valid() && Count(t.log, CallBack) <= 1
    ensures firedAt == -1 ==> t.registered && forall i :: 0 <= i < |rectYs| ==> !Visible(rectYs[i], innerHeights[i])
    ensures firedAt != -1 ==> && 0 <= firedAt < |rectYs| && Visible(rectYs[firedAt], innerHeights[firedAt])
                              && (forall i :: 0 <= i < firedAt ==> !Visible(rectYs[i], innerHeights[i]))
                              && Count(t.log, CallBack) == 1
  {
    firedAt := -1;
    var k := 0;
    while k < |rectYs|
      invariant 0 <= k <= |rectYs| && t.Valid()
      invariant firedAt == -1 <==> t.registered
      invariant firedAt == -1 ==> forall i :: 0 <= i < k ==> !Visible(rectYs[i], innerHeights[i])
      invariant firedAt != -1 ==> && 0 <= firedAt < k && Visible(rectYs[firedAt], innerHeights[firedAt])
                                  && (forall i :: 0 <= i < firedAt ==> !Visible(rectYs[i], innerHeights[i]))
    {
      var fired := t.OnScroll(rectYs[k], innerHeights[k]);
      if fired {
        firedAt := k;
      }
      k := k + 1;
    }
    CallbackCount(t);
  }
}
