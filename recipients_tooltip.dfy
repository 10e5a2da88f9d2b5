/**
  The hover tooltip that wraps the count badge: a two-state machine
  (hidden, visible) driven by pointer enter and leave, which shows a
  floating panel with its message only while visible.
 */
module RecipientsTooltip {
  import opened Wrappers

  /** The two pointer events the tooltip's root element listens to. */
  datatype Pointer = Enter | Leave

  /** The state after one event: enter shows the panel, leave hides it. */
  function Next(visible: bool, e: Pointer): bool
  {
    match e
    case Enter => true
    case Leave => false
  }

  /** The state after a whole history of pointer events, oldest first. */
  function VisibleAfter(visible: bool, events: seq<Pointer>): bool
    decreases |events|
  {
    if events == [] then visible else VisibleAfter(Next(visible, events[0]), events[1..])
  }

  /**
    The tooltip has no terminal state and no timer: after any non-empty
    history it is visible exactly when the last event was an enter.
   */
  lemma {:induction false} VisibleAfterLastEvent(visible: bool, events: seq<Pointer>)
    ensures VisibleAfter(visible, events) == if events == [] then visible else events[|events| - 1] == Enter
    decreases |events|
  {
    if events != [] {
      VisibleAfterLastEvent(Next(visible, events[0]), events[1..]);
      if |events| == 1 {
        assert events[1..] == [];
      } else {
        assert events[1..][|events[1..]| - 1] == events[|events| - 1];
      }
    }
  }

  /** From the initial hidden state, the panel is showing iff the last event was an enter. */
  lemma ShownAfterHistory(events: seq<Pointer>)
    ensures VisibleAfter(false, events) <==> (events != [] && events[|events| - 1] == Enter)
  {
    VisibleAfterLastEvent(false, events);
  }

  class Tooltip {
    const message: string
    var visible: bool

    /** The floating panel: the message while visible, nothing otherwise. */
    function Panel(): Option<string>
      reads this
    {
      if visible then Some(message) else None
    }

    /** A fresh tooltip starts hidden. */
    constructor (message: string)
      ensures this.message == message && !visible
      ensures Panel() == None
    {
      this.message := message;
      visible := false;
    }

    method ShowTooltip()
      modifies this
      ensures visible && Panel() == Some(message)
    {
      visible := true;
    }

    method HideTooltip()
      modifies this
      ensures !visible && Panel() == None
    {
      visible := false;
    }

    /** The root element's wiring: enter runs ShowTooltip, leave runs HideTooltip. */
    method Dispatch(e: Pointer)
      modifies this
      ensures visible == Next(old(visible), e)
      ensures Panel() == if e == Enter then Some(message) else None
    {
      match e
      case Enter => ShowTooltip();
      case Leave => HideTooltip();
    }
  }
}
