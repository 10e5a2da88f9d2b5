# Recipients display: prefix-fit truncation

A Dafny model of the `RecipientsDisplay` widget of the responsive-table-column
repository (`src/components/RecipientsDisplay.tsx`). The widget shows as many
leading recipient names, joined with `", "`, as fit in its container, followed
by a `", ..."` marker and a badge counting the names left out; the badge sits in
a hover tooltip whose message is the whole joined list.

- `recipients_display.dfy`, module `RecipientsDisplay`:
  - `Join` is `Array.prototype.join`.
  - `Fits`, `FirstOverflow` and `VisibleCount` are the specification of one fitting pass.
  - `HandleRecipient` is the fitting routine itself. It is an imperative loop over
    `sliceIndex` that rewrites the measuring span's text on each pass and sets the
    tentative truncated count. It is proved against `VisibleCount`.
  - `Display` is a class holding the widget's state: the captured recipient list,
    the span text, and the truncated count, which starts at 1.
  - `Render` is the render condition.
- `recipients_tooltip.dfy`, module `RecipientsTooltip`: the hidden/visible hover
  state machine, as a class and as a transition function over event histories.
- `wrappers.dfy`: an `Option` type.

Measurement is a parameter. `measure: string -> nat` gives the rendered width of
the measuring span holding a given text. The container, marker and badge widths
are naturals passed in. Nothing assumes `measure` grows with the text, because the
loop does not rely on that. Widths are whole pixels, as `offsetWidth` and
`clientWidth` report them.

Where the written description of the widget and the code differ, the model follows the code:

- The description speaks of the *longest* fitting prefix. The code keeps the prefix
  before the *first* overflow, and it never tests a prefix of length 1. So with two
  or more names at least one name is always shown. The two readings agree when
  prefix widths grow with the prefix (`LongestFitWhenWidthsGrow`), and they differ
  otherwise (`FirstOverflowIsNotLongestFit`).
- The description says visible plus truncated always equals the total after a pass.
  This holds for every non-empty list. For an empty list the loop never runs, so the
  placeholder count 1 stays. The render then shows the marker and a badge counting 1,
  with an empty tooltip message.
- The marker width and the badge width read as 0 while the count is 0. That is when
  those elements are not in the document (the `?.` / `|| 0` reads).
  `Display.Recompute` models this. So after a pass where everything fitted, the next
  pass tests prefixes against the container alone. `WiderContainerShowsMore` shows
  this can only leave at least as many names visible. Because of this, two
  consecutive passes over an unchanged layout can disagree when the first one moved
  the count between 0 and non-zero. For unchanged measured widths, a pass over a
  non-empty list is deterministic: its result does not depend on the prior span text
  or count.
- The effect registers with an empty dependency list. So the routine keeps the
  recipient list it saw at mount, which `Display.recipients` models as a constant.

## Model

| member | source | states |
|---|---|---|
| `RecipientsDisplay.JoinAppend` | src/components/RecipientsDisplay.tsx:77 | joining two non-empty lists equals the first join, one separator, and the second join |
| `RecipientsDisplay.FirstOverflow` | src/components/RecipientsDisplay.tsx:76-84 | the result lies in `k .. n+1`; every prefix length from `k` below it fits with marker and badge; a result `<= n` is a prefix that overflows (first-overflow minimality) |
| `RecipientsDisplay.VisibleCount` | src/components/RecipientsDisplay.tsx:70-86 | between 1 and `n` names are visible; a singleton shows its one name; every prefix of length `2 .. v` fits; if not all are visible, prefix `v+1` overflows |
| `RecipientsDisplay.VisibleCountUnique` | src/components/RecipientsDisplay.tsx:76-84 | "fits up to `v`, overflows at `v+1`" determines the visible count uniquely |
| `RecipientsDisplay.HandleRecipient` | src/components/RecipientsDisplay.tsx:62-89 | an absent span or an empty list writes nothing and keeps the prior text and count; a singleton shows `recipients[0]` with count 0 whatever the widths; otherwise the count is `n - VisibleCount` and the span holds the join of the first `VisibleCount` names, so visible plus truncated is `n` and, through `VisibleCount`, the count lies in `0 .. n-1`, a positive count marks the first overflowing prefix, and count 0 means every prefix from 2 fitted and the full join is shown |
| `RecipientsDisplay.FirstOverflowMonotone` | src/components/RecipientsDisplay.tsx:76-84 | more room for text (container minus badge minus marker) never moves the first overflow earlier |
| `RecipientsDisplay.WiderContainerShowsMore` | src/components/RecipientsDisplay.tsx:64-68 | with more room for text, at least as many names stay visible |
| `RecipientsDisplay.LongestFitWhenWidthsGrow` | src/components/RecipientsDisplay.tsx:75-86 | if prefix widths grow with the prefix, no prefix longer than the visible one fits, so the first overflow gives the longest fit |
| `RecipientsDisplay.FirstOverflowIsNotLongestFit` | src/components/RecipientsDisplay.tsx:75-86 | a concrete list and measure where one name is shown although all three fit |
| `RecipientsDisplay.SettledRender` | src/components/RecipientsDisplay.tsx:105-107 | after a pass over a non-empty list, there is no badge exactly when the span shows the whole list, and then no marker; with a badge, the marker is `", ..."`, the badge counts the hidden names, and the tooltip message (the full join) is the visible text, a separator, and the hidden names joined |
| `RecipientsDisplay.TwoOfThreeScenario` | src/components/RecipientsDisplay.tsx:75-86 | for Alice, Bob, Carol, when two names fit but three do not, the view is "Alice, Bob", the marker, and badge 1 with tooltip "Alice, Bob, Carol" |
| `RecipientsDisplay.Display.constructor` | src/components/RecipientsDisplay.tsx:59 | the truncated count starts at the placeholder 1 and the span is empty |
| `RecipientsDisplay.Display.Recompute` | src/components/RecipientsDisplay.tsx:62-96 | one pass as run on mount and on each resize; it reads the marker and badge widths as 0 while the count is 0, and the new state is the pass result over those widths; an absent span or empty list leaves the state unchanged |
| `RecipientsTooltip.VisibleAfterLastEvent` | src/components/RecipientsDisplay.tsx:11-19 | after any non-empty pointer history the tooltip is visible exactly when the last event was an enter |
| `RecipientsTooltip.ShownAfterHistory` | src/components/RecipientsDisplay.tsx:11-22 | from the initial hidden state, visible iff the history is non-empty and ends with an enter |
| `RecipientsTooltip.Tooltip.constructor` | src/components/RecipientsDisplay.tsx:11 | a new tooltip is hidden and shows no panel |
| `RecipientsTooltip.Tooltip.ShowTooltip` | src/components/RecipientsDisplay.tsx:13-15 | afterwards visible, and the panel shows the message |
| `RecipientsTooltip.Tooltip.HideTooltip` | src/components/RecipientsDisplay.tsx:17-19 | afterwards hidden, and no panel is shown |
| `RecipientsTooltip.Tooltip.Dispatch` | src/components/RecipientsDisplay.tsx:22-28 | enter shows the panel with the message, leave hides it |

## Left out

- React hooks (`useState`, `useRef`, `useEffect`) and the mount/unmount lifecycle: the state is plain fields of `Display` and `Tooltip`, and a missing span reference is the `spanMounted` parameter.
- State batching: React applies only the last `setNumTruncated` of a pass, so the model keeps only the final value.
- The window resize listener and its registration and removal (lines 91-101): each resize runs `Display.Recompute` again.
- DOM measurement (`offsetWidth`, `clientWidth`, `children[1]`): the widths are inputs and the span width is the `measure` parameter. A container width of 0 before layout is modelled just by passing 0.
- Styling and markup (the styled-components CSS and the JSX structure).
- `RecipientsBadge`: its source is not part of this model. It is treated as a consumer of the count in `Badge`.
- The tooltip's children: they are rendered unchanged in both states and carry no logic.
