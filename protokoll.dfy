/**
 * parisprotokoll/parisprotokoll.js: the page script around a ClimateChart.
 * Focus buttons carry an active or an inactive CSS class; clicking one
 * focuses its group and toggles the buttons, and two scale buttons swap
 * between a linear and a log x scale. The calls made on the chart are
 * recorded as events.
 */
module ParisProtokoll {
  import opened Js

  /** The two classes of interest in a button's `classList`. */
  datatype Classes = Classes(active: bool, inactive: bool)

  /**
   * A `[data-action-focus]` element: the group it focuses and its class
   * list, `None` on a browser without `classList`.
   */
  datatype Button = Button(focus: string, classList: Option<Classes>)

  /** `style.display` of a scale button. */
  datatype Display = Unset | Inline | Hidden

  /** A call the page makes on the chart. */
  datatype ChartCall = FocusGroup(group: string) | ResetChart | UpdateScale(isLogScale: bool)

  /** What a handler leaves behind: the focus buttons, and the exception it stopped with, if any. */
  datatype Step = Step(buttons: seq<Button>, thrown: Option<Error>)

  predicate IsActive(b: Button) {
    b.classList.Some? && b.classList.value.active
  }

  /** At most one focus button is marked active. */
  predicate AtMostOneActive(bs: seq<Button>) {
    forall i, j :: 0 <= i < |bs| && 0 <= j < |bs| && IsActive(bs[i]) && IsActive(bs[j]) ==> i == j
  }

  /** Both classes removed; a button without a class list is skipped. */
  function Clear(b: Button): Button {
    if b.classList.Some? then b.(classList := Some(Classes(false, false))) else b
  }

  /** The focus buttons after the loop of `reset()`. */
  function Cleared(bs: seq<Button>): seq<Button> {
    seq(|bs|, i requires 0 <= i < |bs| => Clear(bs[i]))
  }

  /** `add(inactive); remove(active)` */
  function MarkInactive(b: Button): Button {
    b.(classList := Some(Classes(false, true)))
  }

  /** `remove(inactive); add(active)` */
  function MarkActive(b: Button): Button {
    b.(classList := Some(Classes(true, false)))
  }

  /** The position of the first button without a class list, or `|bs|` when all have one. */
  function FirstWithout(bs: seq<Button>): (j: nat)
    ensures j <= |bs|
    ensures forall i :: 0 <= i < j ==> bs[i].classList.Some?
    ensures j < |bs| ==> bs[j].classList.None?
    decreases |bs|
  {
    if bs == [] then 0
    else if bs[0].classList.None? then 0
    else 1 + FirstWithout(bs[1..])
  }

  /**
   * `activateButton(bs[sel])`: nothing happens when the selected button has
   * no class list. Otherwise every button is marked inactive in turn, which
   * throws at the first button without a class list (the ones before it are
   * already marked); when the loop completes, the selected button is marked
   * active.
   */
  function Activated(bs: seq<Button>, sel: nat): Step
    requires sel < |bs|
  {
    if bs[sel].classList.None? then Step(bs, None)
    else
      var j := FirstWithout(bs);
      if j < |bs| then
        Step(seq(|bs|, i requires 0 <= i < |bs| => if i < j then MarkInactive(bs[i]) else bs[i]), Some(TypeError))
      else
        Step(seq(|bs|, i requires 0 <= i < |bs| => if i == sel then MarkActive(bs[i]) else MarkInactive(bs[i])), None)
  }

  /** The buttons after a click on `bs[i]` (the handler of the focus buttons). */
  function Clicked(bs: seq<Button>, i: nat): Step
    requires i < |bs|
  {
    if bs[i].classList.None? then Step(bs, None)
    else if IsActive(bs[i]) then Step(Cleared(bs), None)
    else Activated(bs, i)
  }

  /** The chart calls a click on `bs[i]` makes: always `focusGroup` first, then `reset` if the button was active. */
  function ClickCalls(bs: seq<Button>, i: nat): seq<ChartCall>
    requires i < |bs|
  {
    [FocusGroup(bs[i].focus)] + (if IsActive(bs[i]) then [ResetChart] else [])
  }

  /** After `reset()` no focus button carries either class, and nothing else about the buttons changes. */
  lemma ClearedIsNeutral(bs: seq<Button>)
    ensures |Cleared(bs)| == |bs|
    ensures forall i :: 0 <= i < |bs| ==> Cleared(bs)[i].focus == bs[i].focus
    ensures forall i :: 0 <= i < |bs| ==>
      Cleared(bs)[i].classList == if bs[i].classList.Some? then Some(Classes(false, false)) else None
    ensures AtMostOneActive(Cleared(bs))
  {
  }

  /**
   * When every focus button has a class list, activation completes: the
   * selected button is active and not inactive, every other button is
   * inactive and not active, and no group changes.
   */
  lemma ActivatedExactlyOne(bs: seq<Button>, sel: nat)
    requires sel < |bs|
    requires forall i :: 0 <= i < |bs| ==> bs[i].classList.Some?
    ensures Activated(bs, sel).thrown.None?
    ensures |Activated(bs, sel).buttons| == |bs|
    ensures Activated(bs, sel).buttons[sel].classList == Some(Classes(true, false))
    ensures forall i :: 0 <= i < |bs| && i != sel ==> Activated(bs, sel).buttons[i].classList == Some(Classes(false, true))
    ensures forall i :: 0 <= i < |bs| ==> Activated(bs, sel).buttons[i].focus == bs[i].focus
  {
  }

  /** Activation, whether it completes, stops early or does nothing, keeps at most one button active. */
  lemma ActivatedKeepsAtMostOne(bs: seq<Button>, sel: nat)
    requires sel < |bs| && AtMostOneActive(bs)
    ensures |Activated(bs, sel).buttons| == |bs|
    ensures AtMostOneActive(Activated(bs, sel).buttons)
  {
  }

  /** Every click handler keeps at most one focus button active. */
  lemma ClickedKeepsAtMostOne(bs: seq<Button>, i: nat)
    requires i < |bs| && AtMostOneActive(bs)
    ensures |Clicked(bs, i).buttons| == |bs|
    ensures AtMostOneActive(Clicked(bs, i).buttons)
  {
  }

  /**
   * Clicking a button that is not active activates it; clicking it once more
   * resets: with every button carrying a class list, two clicks on the same
   * button end in the neutral state, and the chart has been told to focus the
   * group twice and then to reset.
   */
  lemma ClickTwiceIsNeutral(bs: seq<Button>, i: nat)
    requires i < |bs| && !IsActive(bs[i])
    requires forall j :: 0 <= j < |bs| ==> bs[j].classList.Some?
    ensures Clicked(bs, i).thrown.None?
    ensures i < |Clicked(bs, i).buttons|
    ensures Clicked(Clicked(bs, i).buttons, i) == Step(Cleared(bs), None)
    ensures ClickCalls(bs, i) + ClickCalls(Clicked(bs, i).buttons, i)
            == [FocusGroup(bs[i].focus), FocusGroup(bs[i].focus), ResetChart]
  {
  }

  /**
   * The page: its focus buttons, the two scale buttons, the calls made on the
   * chart so far, and whether the chart has its data yet.
   */
  class Page {
    var buttons: seq<Button>
    var linearDisplay: Display
    var logDisplay: Display
    var calls: seq<ChartCall>
    /**
     * Whether the chart's CSV callback has run. The handlers are installed
     * straight after `new ClimateChart(...)`, which loads the data
     * asynchronously; until then the chart's `data` and `svg` are undefined,
     * and `focusGroup`, `reset` and `update` each throw a TypeError.
     */
    var chartReady: bool

    /** The page as loaded, before any click and before the chart's data has arrived. */
    constructor (buttons: seq<Button>, linearDisplay: Display, logDisplay: Display)
      ensures this.buttons == buttons && this.linearDisplay == linearDisplay && this.logDisplay == logDisplay
      ensures calls == [] && !chartReady
    {
      this.buttons := buttons;
      this.linearDisplay := linearDisplay;
      this.logDisplay := logDisplay;
      calls := [];
      chartReady := false;
    }

    /** The chart's CSV callback has run: its data and svg exist from now on. */
    method ChartLoaded()
      modifies this`chartReady
      ensures chartReady
    {
      chartReady := true;
    }

    /**
     * `reset()`: `chart.reset()`, then both classes are removed from every
     * focus button that has a class list. Before the chart has its data, the
     * chart call throws and no button changes.
     */
    method Reset() returns (thrown: Option<Error>)
      modifies this`buttons, this`calls
      ensures calls == old(calls) + [ResetChart]
      ensures !chartReady ==> thrown == Some(TypeError) && buttons == old(buttons)
      ensures chartReady ==> thrown == None && buttons == Cleared(old(buttons))
    {
      calls := calls + [ResetChart];
      if !chartReady {
        // `updateChart` -> `initScales`: `d3.extent` reads `length` of the undefined `data`
        return Some(TypeError);
      }
      for j := 0 to |buttons|
        invariant |buttons| == |old(buttons)|
        invariant calls == old(calls) + [ResetChart]
        invariant forall i :: 0 <= i < |buttons| ==> buttons[i] == if i < j then Clear(old(buttons)[i]) else old(buttons)[i]
      {
        if buttons[j].classList.Some? {
          buttons := buttons[j := Clear(buttons[j])];
        }
      }
      thrown := None;
    }

    /** `activateButton(focusButtons[sel])`. */
    method ActivateButton(sel: nat) returns (thrown: Option<Error>)
      requires sel < |buttons|
      modifies this`buttons
      ensures Step(buttons, thrown) == Activated(old(buttons), sel)
    {
      if buttons[sel].classList.None? {
        return None;
      }
      ghost var bs := buttons;
      for j := 0 to |buttons|
        invariant |buttons| == |bs|
        invariant forall i :: 0 <= i < j ==> bs[i].classList.Some?
        invariant forall i :: 0 <= i < |bs| ==> buttons[i] == if i < j then MarkInactive(bs[i]) else bs[i]
      {
        if buttons[j].classList.None? {
          // `button.classList.add` on a button without a class list
          assert FirstWithout(bs) == j by {
            FirstWithoutIs(bs, j);
          }
          return Some(TypeError);
        }
        buttons := buttons[j := MarkInactive(buttons[j])];
      }
      assert FirstWithout(bs) == |bs| by {
        FirstWithoutIs(bs, |bs|);
      }
      buttons := buttons[sel := MarkActive(buttons[sel])];
      thrown := None;
    }

    /**
     * The click handler of focus button `i`. Before the chart has its data,
     * `chart.focusGroup` throws and the buttons stay as they are.
     */
    method Click(i: nat) returns (thrown: Option<Error>)
      requires i < |buttons|
      modifies this`buttons, this`calls
      ensures !chartReady ==> thrown == Some(TypeError) && buttons == old(buttons)
                              && calls == old(calls) + [FocusGroup(old(buttons)[i].focus)]
      ensures chartReady ==> Step(buttons, thrown) == Clicked(old(buttons), i)
                             && calls == old(calls) + ClickCalls(old(buttons), i)
    {
      calls := calls + [FocusGroup(buttons[i].focus)];
      if !chartReady {
        // `data.filter` on the undefined `data`
        return Some(TypeError);
      }
      thrown := None;
      if buttons[i].classList.Some? {
        if buttons[i].classList.value.active {
          thrown := Reset();
        } else {
          thrown := ActivateButton(i);
        }
      }
    }

    /**
     * The log-scale button's click handler. Before the chart has its data,
     * `reset()` throws at its first statement and neither button's display
     * changes.
     */
    method LogScaleClick() returns (thrown: Option<Error>)
      modifies this`buttons, this`calls, this`linearDisplay, this`logDisplay
      ensures !chartReady ==> && thrown == Some(TypeError) && calls == old(calls) + [ResetChart]
                              && buttons == old(buttons)
                              && linearDisplay == old(linearDisplay) && logDisplay == old(logDisplay)
      ensures chartReady ==> && thrown == None && calls == old(calls) + [ResetChart, UpdateScale(true)]
                             && buttons == Cleared(old(buttons))
                             && linearDisplay == Inline && logDisplay == Hidden
    {
      thrown := Reset();
      if thrown.Some? {
        return;
      }
      linearDisplay := Inline;
      logDisplay := Hidden;
      calls := calls + [UpdateScale(true)];
    }

    /** The linear-scale button's click handler, the mirror image of `LogScaleClick`. */
    method LinearScaleClick() returns (thrown: Option<Error>)
      modifies this`buttons, this`calls, this`linearDisplay, this`logDisplay
      ensures !chartReady ==> && thrown == Some(TypeError) && calls == old(calls) + [ResetChart]
                              && buttons == old(buttons)
                              && linearDisplay == old(linearDisplay) && logDisplay == old(logDisplay)
      ensures chartReady ==> && thrown == None && calls == old(calls) + [ResetChart, UpdateScale(false)]
                             && buttons == Cleared(old(buttons))
                             && linearDisplay == Hidden && logDisplay == Inline
    {
      thrown := Reset();
      if thrown.Some? {
        return;
      }
      linearDisplay := Hidden;
      logDisplay := Inline;
      calls := calls + [UpdateScale(false)];
    }
  }

  /** `FirstWithout` is the first position without a class list. */
  lemma FirstWithoutIs(bs: seq<Button>, j: nat)
    requires j <= |bs|
    requires forall i :: 0 <= i < j ==> bs[i].classList.Some?
    requires j < |bs| ==> bs[j].classList.None?
    ensures FirstWithout(bs) == j
  {
  }
}
