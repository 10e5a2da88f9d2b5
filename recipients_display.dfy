/**
  The recipients display: it shows as many leading recipient names,
  joined with ", ", as fit in its container together with a trailing
  ", ..." marker and a badge counting the names left out; the badge is
  wrapped in a tooltip whose message is the whole list.

  Text measurement is abstracted as a function `measure` from the text
  written into the measuring span to its rendered width in whole pixels.
  Nothing is assumed about `measure` (in particular not that it grows with
  the text), because the fitting loop does not rely on it.
 */
module RecipientsDisplay {
  import opened Wrappers

  /** The separator the widget joins names with. */
  const Separator: string := ", "
  /** The marker rendered after the visible names when some are left out. */
  const Marker: string := ", ..."

  /** Array.prototype.join: the elements with `sep` between neighbours. */
  function Join(names: seq<string>, sep: string): string
    decreases |names|
  {
    if |names| == 0 then ""
    else if |names| == 1 then names[0]
    else names[0] + sep + Join(names[1..], sep)
  }

  /** Joining two non-empty lists puts one separator between their joins. */
  lemma {:induction false} JoinAppend(a: seq<string>, b: seq<string>, sep: string)
    requires |a| >= 1 && |b| >= 1
    ensures Join(a + b, sep) == Join(a, sep) + sep + Join(b, sep)
    decreases |a|
  {
    if |a| == 1 {
      assert (a + b)[1..] == b;
    } else {
      assert (a + b)[1..] == a[1..] + b;
      JoinAppend(a[1..], b, sep);
    }
  }

  /** The widths read at the start of a pass: container, ", ..." marker and badge. */
  datatype Widths = Widths(container: nat, tripleDot: nat, badge: nat)

  /** The rendered width of the first `k` names joined, as the measuring span reports it. */
  function PrefixWidth(names: seq<string>, k: nat, measure: string -> nat): nat
    requires k <= |names|
  {
    measure(Join(names[..k], Separator))
  }

  /** The first `k` names fit when their width plus badge and marker do not exceed the container. */
  predicate Fits(names: seq<string>, k: nat, w: Widths, measure: string -> nat)
    requires k <= |names|
  {
    PrefixWidth(names, k, measure) + w.badge + w.tripleDot <= w.container
  }

  /**
    The first prefix length from `k` on that does not fit, or
    |names| + 1 when every prefix from `k` to the whole list fits.
   */
  function FirstOverflow(names: seq<string>, k: nat, w: Widths, measure: string -> nat): (r: nat)
    requires 2 <= k <= |names| + 1
    ensures k <= r <= |names| + 1
    ensures forall j :: k <= j < r ==> Fits(names, j, w, measure)
    ensures r <= |names| ==> !Fits(names, r, w, measure)
    decreases |names| + 1 - k
  {
    if k > |names| then k
    else if !Fits(names, k, w, measure) then k
    else FirstOverflow(names, k + 1, w, measure)
  }

  /**
    How many leading names a settled pass leaves visible. A single name is
    always shown in full; otherwise the prefixes are tried from length 2 up
    and the one before the first overflow is kept, so at least one name is
    always visible.
   */
  function VisibleCount(names: seq<string>, w: Widths, measure: string -> nat): (v: nat)
    requires |names| >= 1
    ensures 1 <= v <= |names|
    ensures |names| == 1 ==> v == 1
    ensures forall j :: 2 <= j <= v ==> Fits(names, j, w, measure)
    ensures v < |names| ==> !Fits(names, v + 1, w, measure)
  {
    if |names| == 1 then 1 else FirstOverflow(names, 2, w, measure) - 1
  }

  /** The visible count is fixed by its contract: "fits up to v, overflows at v + 1". */
  lemma VisibleCountUnique(names: seq<string>, w: Widths, measure: string -> nat, v: nat)
    requires 2 <= |names| && 1 <= v <= |names|
    requires forall j :: 2 <= j <= v ==> Fits(names, j, w, measure)
    requires v < |names| ==> !Fits(names, v + 1, w, measure)
    ensures v == VisibleCount(names, w, measure)
  {
  }

  /**
    One pass of the fitting routine. `spanText0` and `numTruncated0` are
    the measuring span's text and the truncated count before the pass;
    the results are their values after it. When the span is not mounted,
    or the list is empty, nothing is written.
   */
  method HandleRecipient(recipients: seq<string>, spanMounted: bool, w: Widths, measure: string -> nat,
                         spanText0: string, numTruncated0: nat)
    returns (spanText: string, numTruncated: nat)
    ensures if !spanMounted || |recipients| == 0 then spanText == spanText0 && numTruncated == numTruncated0
            else
              && numTruncated == |recipients| - VisibleCount(recipients, w, measure)
              && spanText == Join(recipients[..VisibleCount(recipients, w, measure)], Separator)
    ensures spanMounted && |recipients| == 1 ==> spanText == recipients[0] && numTruncated == 0
  {
    spanText, numTruncated := spanText0, numTruncated0;
    if spanMounted {
      var n := |recipients|;
      if n == 1 {
        spanText := recipients[0];
        numTruncated := 0;
      } else {
        ghost var f := if n >= 2 then FirstOverflow(recipients, 2, w, measure) else n + 1;
        var sliceIndex := 2;
        while sliceIndex <= n
          invariant 2 <= sliceIndex
          invariant n >= 2 ==> sliceIndex <= n + 1
          invariant n == 0 ==> spanText == spanText0 && numTruncated == numTruncated0
          invariant n >= 2 ==>
            || (&& sliceIndex <= f
                && (sliceIndex > 2 ==> spanText == Join(recipients[..sliceIndex - 1], Separator) && numTruncated == 0))
            || (&& f <= n && sliceIndex == n + 1
                && spanText == Join(recipients[..f - 1], Separator) && numTruncated == n + 1 - f)
          decreases n + 1 - sliceIndex
        {
          spanText := Join(recipients[..sliceIndex], Separator);
          assert n >= 2 && PrefixWidth(recipients, sliceIndex, measure) == measure(spanText);
          if measure(spanText) + w.badge + w.tripleDot > w.container {
            assert !Fits(recipients, sliceIndex, w, measure);
            spanText := Join(recipients[..sliceIndex - 1], Separator);
            numTruncated := n - sliceIndex + 1;
            sliceIndex := n + 1;
          } else {
            sliceIndex := sliceIndex + 1;
            numTruncated := 0;
          }
        }
        assert n >= 2 && f == n + 1 ==> recipients[..n] == recipients;
      }
    }
  }

  /**
    A pass never shows fewer names when the room left for text grows:
    a wider container, or a narrower marker or badge, keeps every prefix
    that fitted fitting.
   */
  lemma {:induction false} FirstOverflowMonotone(names: seq<string>, k: nat, w1: Widths, w2: Widths, measure: string -> nat)
    requires 2 <= k <= |names| + 1
    requires w1.container - w1.badge - w1.tripleDot <= w2.container - w2.badge - w2.tripleDot
    ensures FirstOverflow(names, k, w1, measure) <= FirstOverflow(names, k, w2, measure)
    decreases |names| + 1 - k
  {
    if k <= |names| && Fits(names, k, w1, measure) {
      FirstOverflowMonotone(names, k + 1, w1, w2, measure);
    }
  }

  lemma WiderContainerShowsMore(names: seq<string>, w1: Widths, w2: Widths, measure: string -> nat)
    requires |names| >= 1
    requires w1.container - w1.badge - w1.tripleDot <= w2.container - w2.badge - w2.tripleDot
    ensures VisibleCount(names, w1, measure) <= VisibleCount(names, w2, measure)
  {
    if |names| >= 2 {
      FirstOverflowMonotone(names, 2, w1, w2, measure);
    }
  }

  /** Prefix widths that never shrink as names are added. */
  ghost predicate PrefixWidthsGrow(names: seq<string>, measure: string -> nat)
  {
    forall i, j :: 2 <= i <= j <= |names| ==> PrefixWidth(names, i, measure) <= PrefixWidth(names, j, measure)
  }

  /**
    When prefix widths grow with the prefix, stopping at the first overflow
    keeps the longest fitting prefix: no longer prefix fits either.
   */
  lemma LongestFitWhenWidthsGrow(names: seq<string>, w: Widths, measure: string -> nat)
    requires |names| >= 1 && PrefixWidthsGrow(names, measure)
    ensures forall j :: VisibleCount(names, w, measure) < j <= |names| ==> !Fits(names, j, w, measure)
  {
    var v := VisibleCount(names, w, measure);
    forall j | v < j <= |names|
      ensures !Fits(names, j, w, measure)
    {
      assert PrefixWidth(names, v + 1, measure) <= PrefixWidth(names, j, measure);
    }
  }

  /**
    Without growing widths the first overflow need not be the longest fit:
    with three one-letter names whose two-name join alone is measured too
    wide, only one name is shown although all three fit.
   */
  lemma FirstOverflowIsNotLongestFit()
    ensures var names := ["a", "b", "c"];
            var measure := (s: string) => if |s| == 4 then 100 else 0;
            var w := Widths(10, 0, 0);
            VisibleCount(names, w, measure) == 1 && Fits(names, 3, w, measure)
  {
    var names := ["a", "b", "c"];
    var measure := (s: string) => if |s| == 4 then 100 else 0;
    var w := Widths(10, 0, 0);
    assert names[..2] == ["a", "b"] && names[..3] == names;
    assert Join(["a", "b"], Separator) == "a, b";
    assert Join(names, Separator) == "a, " + Join(["b", "c"], Separator);
    assert Join(["b", "c"], Separator) == "b, c";
    assert !Fits(names, 2, w, measure);
    assert FirstOverflow(names, 2, w, measure) == 2;
  }

  /** What the widget renders besides its container. */
  datatype Badge = Badge(numTruncated: nat, tooltipMessage: string)
  datatype View = View(recipientsText: string, marker: string, badge: Option<Badge>)

  /** The render: the marker and the tooltip-wrapped badge appear only for a non-zero count. */
  function Render(recipients: seq<string>, spanText: string, numTruncated: nat): View
  {
    if numTruncated != 0 then View(spanText, Marker, Some(Badge(numTruncated, Join(recipients, Separator))))
    else View(spanText, "", None)
  }

  /**
    After a settled pass over a non-empty list, the badge is absent exactly
    when the span shows the whole list; when present it counts the names
    left out, and its tooltip is the visible text, a separator, and the
    hidden names joined.
   */
  lemma SettledRender(names: seq<string>, w: Widths, measure: string -> nat)
    requires |names| >= 1
    ensures var v := VisibleCount(names, w, measure);
            var view := Render(names, Join(names[..v], Separator), |names| - v);
            && (view.badge.None? <==> view.recipientsText == Join(names, Separator))
            && (view.badge.None? ==> view.marker == "")
            && (view.badge.Some? ==>
                  && view.marker == Marker
                  && view.badge.value.numTruncated == |names[v..]|
                  && view.badge.value.tooltipMessage == view.recipientsText + Separator + Join(names[v..], Separator))
  {
    var v := VisibleCount(names, w, measure);
    if v < |names| {
      assert names == names[..v] + names[v..];
      JoinAppend(names[..v], names[v..], Separator);
      assert |Join(names, Separator)| > |Join(names[..v], Separator)|;
    } else {
      assert names[..v] == names;
    }
  }

  /**
    The three-name scenario: when "Alice, Bob" fits with marker and badge
    but "Alice, Bob, Carol" does not, the span shows two names, the badge
    counts one, and the tooltip holds all three.
   */
  lemma TwoOfThreeScenario(w: Widths, measure: string -> nat)
    requires var names := ["Alice", "Bob", "Carol"];
             Fits(names, 2, w, measure) && !Fits(names, 3, w, measure)
    ensures var names := ["Alice", "Bob", "Carol"];
            var v := VisibleCount(names, w, measure);
            Render(names, Join(names[..v], Separator), |names| - v)
              == View("Alice, Bob", Marker, Some(Badge(1, "Alice, Bob, Carol")))
  {
    var names := ["Alice", "Bob", "Carol"];
    assert VisibleCount(names, w, measure) == 2;
    assert names[..2] == ["Alice", "Bob"];
    assert Join(["Alice", "Bob"], Separator) == "Alice, Bob";
    assert names[1..] == ["Bob", "Carol"] && ["Bob", "Carol"][1..] == ["Carol"];
    assert Join(["Bob", "Carol"], Separator) == "Bob, Carol";
    assert Join(names, Separator) == "Alice, Bob, Carol";
  }

  /**
    The widget's state: the recipients captured when it mounted, the
    measuring span's text and the truncated count (1 before the first
    pass, so the first render shows marker and badge to be measured).
   */
  class Display {
    const recipients: seq<string>
    var spanText: string
    var numTruncated: nat

    constructor (recipients: seq<string>)
      ensures this.recipients == recipients && spanText == "" && numTruncated == 1
    {
      this.recipients := recipients;
      spanText := "";
      numTruncated := 1;
    }

    /**
      The widths a pass reads: the marker span and the badge are in the
      document only while the count is non-zero, and otherwise read as 0.
     */
    function MeasuredWidths(rendered: Widths): Widths
      reads this
    {
      if numTruncated != 0 then rendered else Widths(rendered.container, 0, 0)
    }

    function View(): View
      reads this
    {
      Render(recipients, spanText, numTruncated)
    }

    /** One pass, run once on mount and again on every window resize. */
    method Recompute(spanMounted: bool, rendered: Widths, measure: string -> nat)
      modifies this
      ensures var w := old(MeasuredWidths(rendered));
              if spanMounted && |recipients| >= 1 then
                && numTruncated == |recipients| - VisibleCount(recipients, w, measure)
                && spanText == Join(recipients[..|recipients| - numTruncated], Separator)
              else
                spanText == old(spanText) && numTruncated == old(numTruncated)
    {
      var w := MeasuredWidths(rendered);
      spanText, numTruncated := HandleRecipient(recipients, spanMounted, w, measure, spanText, numTruncated);
    }
  }
}
