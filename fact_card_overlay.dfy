/**
 * The stand-alone fact overlay opened from a deep link
 * (apps/web/src/components/FactCard/FactCardOverlay.tsx): a visibility flag
 * that every close gesture clears, and an `onClose` callback that fires only
 * once the exit animation has finished while the overlay is hidden.
 */
module FactCardOverlay {
  import opened Wrappers
  import opened Strings
  import opened Hits

  /** What can happen to an open overlay. */
  datatype OverlayEvent =
    | CloseButtonClick
    | EscapeKey
    | OtherKey
    | BackdropClick
    /** a click inside the dialog, which stops propagation before the backdrop */
    | DialogClick
    /** the card's animation finished, with the name of the variant it reached */
    | AnimationComplete(variant: string)

  /** The overlay's state and how often it has called `onClose`. */
  datatype OverlayState = OverlayState(isVisible: bool, closeCalls: nat)

  const InitialOverlay := OverlayState(true, 0)

  predicate IsCloseGesture(e: OverlayEvent) {
    e == CloseButtonClick || e == EscapeKey || e == BackdropClick
  }

  /** The effect of one event. */
  function Step(s: OverlayState, e: OverlayEvent): (t: OverlayState)
    ensures !s.isVisible ==> !t.isVisible
    ensures t.closeCalls >= s.closeCalls
    ensures t.closeCalls > s.closeCalls ==> !t.isVisible && t.closeCalls == s.closeCalls + 1
  {
    if IsCloseGesture(e) then s.(isVisible := false)
    else if e.AnimationComplete? && e.variant == "exit" && !s.isVisible then s.(closeCalls := s.closeCalls + 1)
    else s
  }

  /** The state after a sequence of events. */
  function Run(s: OverlayState, events: seq<OverlayEvent>): OverlayState {
    if events == [] then s else Step(Run(s, events[..|events| - 1]), events[|events| - 1])
  }

  /**
   * From the initial state: the overlay is hidden exactly when some close
   * gesture happened, and `onClose` has been called only if it is hidden; a
   * run without a close gesture leaves it visible and never calls `onClose`.
   */
  lemma {:induction false} RunFacts(events: seq<OverlayEvent>)
    ensures var s := Run(InitialOverlay, events);
      (!s.isVisible <==> exists i :: 0 <= i < |events| && IsCloseGesture(events[i])) &&
      (s.closeCalls > 0 ==> !s.isVisible)
  {
    if events != [] {
      var init := events[..|events| - 1];
      RunFacts(init);
      var e := events[|events| - 1];
      if exists i :: 0 <= i < |init| && IsCloseGesture(init[i]) {
        var i :| 0 <= i < |init| && IsCloseGesture(init[i]);
        assert events[i] == init[i];
      }
      if exists i :: 0 <= i < |events| && IsCloseGesture(events[i]) {
        var i :| 0 <= i < |events| && IsCloseGesture(events[i]);
        if i < |init| {
          assert init[i] == events[i];
        }
      }
    }
  }

  /** Once hidden, the overlay never becomes visible again. */
  lemma {:induction false} HiddenStaysHidden(s: OverlayState, events: seq<OverlayEvent>)
    requires !s.isVisible
    ensures !Run(s, events).isVisible && Run(s, events).closeCalls >= s.closeCalls
  {
    if events != [] {
      HiddenStaysHidden(s, events[..|events| - 1]);
    }
  }

  /** The overlay as a component whose state the event handlers change. */
  class Overlay {
    var isVisible: bool
    var closeCalls: nat

    constructor()
      ensures isVisible && closeCalls == 0
    {
      isVisible := true;
      closeCalls := 0;
    }

    /** `handleClose`. */
    method HandleClose()
      modifies this
      ensures !isVisible && closeCalls == old(closeCalls)
    {
      isVisible := false;
    }

    /** `handleExitComplete`. */
    method HandleExitComplete()
      modifies this
      ensures isVisible == old(isVisible)
      ensures closeCalls == if old(isVisible) then old(closeCalls) else old(closeCalls) + 1
    {
      if !isVisible {
        closeCalls := closeCalls + 1;
      }
    }

    /** Dispatch of one event to its handler. */
    method Handle(e: OverlayEvent)
      modifies this
      ensures OverlayState(isVisible, closeCalls) == Step(OverlayState(old(isVisible), old(closeCalls)), e)
    {
      match e
      case CloseButtonClick => HandleClose();
      case EscapeKey => HandleClose();
      case BackdropClick => HandleClose();
      case OtherKey =>
      case DialogClick =>
      case AnimationComplete(variant) =>
        if variant == "exit" {
          HandleExitComplete();
        }
    }
  }

  /** The body text: `content || fact || blurb`. */
  function BodyText(hit: SearchHit): (text: Option<string>)
    ensures Truthy(hit.content) ==> text == hit.content
    ensures !Truthy(hit.content) && Truthy(hit.fact) ==> text == hit.fact
    ensures !Truthy(hit.content) && !Truthy(hit.fact) ==> text == hit.blurb
  {
    OrElse(hit.content, OrElse(hit.fact, hit.blurb))
  }

  /** The source link's label, when the hit has a url. */
  function SourceLabel(hit: SearchHit): (caption: Option<string>)
    ensures caption.Some? <==> Truthy(hit.url)
  {
    if !Truthy(hit.url) then None
    else if Contains(hit.url.value, "dev.to") then Some("Read " + hit.title + " on DEV Community")
    else Some("View source for " + hit.title)
  }

  /** A link to a DEV post reads "Read … on DEV Community"; every other link reads "View source for …". */
  lemma SourceLabelChoice(hit: SearchHit)
    requires Truthy(hit.url)
    ensures Contains(hit.url.value, "dev.to") <==> StartsWith(SourceLabel(hit).value, "Read ")
    ensures !Contains(hit.url.value, "dev.to") <==> StartsWith(SourceLabel(hit).value, "View source for ")
    ensures EndsWith(SourceLabel(hit).value, " on DEV Community") || EndsWith(SourceLabel(hit).value, hit.title)
    ensures Contains(hit.url.value, "dev.to") ==> SourceLabel(hit) == Some("Read " + hit.title + " on DEV Community")
    ensures !Contains(hit.url.value, "dev.to") ==> SourceLabel(hit) == Some("View source for " + hit.title)
  {
    var caption := SourceLabel(hit).value;
    if Contains(hit.url.value, "dev.to") {
      assert caption[..5] == "Read ";
      assert caption[..16][0] == 'R';
      assert caption[|caption| - 17..] == " on DEV Community";
    } else {
      assert caption[..16] == "View source for ";
      assert caption[..5][0] == 'V';
      assert caption[|caption| - |hit.title|..] == hit.title;
    }
  }

  /**
   * The project tag block: shown only for a non-empty `projects` list, and
   * then one tag per project, in order.
   */
  function ProjectTags(hit: SearchHit): (block: Option<seq<string>>)
    ensures block.Some? <==> hit.projects.Some? && |hit.projects.value| > 0
    ensures block.Some? ==> block.value == hit.projects.value
  {
    match hit.projects
    case Some(projects) => if |projects| > 0 then Some(projects) else None
    case None => None
  }
}
