/**
  The controller that hosts modal overlays above a background region:
  the overlay property, the modal pane's display and content, whether
  the background is disabled, the handlers of Enter and of button clicks,
  and the structure of the box built for an overlay. Rendering is not
  modelled; the pane's observable state and the calls made on overlay
  contents are.
*/
module ModalOverlayComps {
  import opened Wrappers
  import opened ModalOverlays

  /** A button-list entry Enter can trigger: a button that is marked as the default. */
  predicate IsDefaultEntry(e: ButtonEntry)
  {
    e.Button? && e.button.defaultButton
  }

  /** The position of the first default button in list order, if any. */
  function DefaultButtonIndex(buttons: seq<ButtonEntry>): (r: Option<nat>)
    ensures r.Some? ==> r.value < |buttons| && IsDefaultEntry(buttons[r.value])
    ensures r.Some? ==> forall j :: 0 <= j < r.value ==> !IsDefaultEntry(buttons[j])
    ensures r.None? ==> forall j :: 0 <= j < |buttons| ==> !IsDefaultEntry(buttons[j])
  {
    if buttons == [] then None
    else if IsDefaultEntry(buttons[0]) then Some(0)
    else match DefaultButtonIndex(buttons[1..])
      case None => None
      case Some(k) => Some(k + 1)
  }

  /** The button Enter triggers on an overlay, if it has one: the first default button in list order. */
  function DefaultButtonOf(o: ModalOverlay): (r: Option<ModalButton>)
    reads o
    ensures r.Some? ==> r.value.defaultButton
    ensures r.Some? ==>
      exists i :: (0 <= i < |o.buttons| && o.buttons[i] == Button(r.value) && forall j :: 0 <= j < i ==> !IsDefaultEntry(o.buttons[j]))
    ensures r.None? <==> forall j :: 0 <= j < |o.buttons| ==> !IsDefaultEntry(o.buttons[j])
  {
    match DefaultButtonIndex(o.buttons)
    case None => None
    case Some(i) => Some(o.buttons[i].button)
  }

  /** The heading of a box: a title label or an empty spacer. */
  datatype Header = TitleLabel(key: string, graphic: Option<Graphic>) | Spacer

  /** A node of the button bar; `accent` marks the default button's style. */
  datatype BarNode = ButtonNode(button: ModalButton, accent: bool) | CompNode(comp: BarComp)

  datatype BoxLayout = BoxLayout(header: Header, body: Content, buttonBar: Option<seq<BarNode>>)

  /** A box shown in the pane: its layout and whether its close button is visible. */
  datatype ModalBoxView = ModalBoxView(id: nat, layout: BoxLayout, closeButtonVisible: bool)

  /** The node built for one entry of the button list. */
  function NodeFor(e: ButtonEntry): BarNode
  {
    match e
    case Button(mb) => ButtonNode(mb, mb.defaultButton)
    case Comp(c) => CompNode(c)
  }

  /** The bar built for a button list: one node per entry, in list order. */
  function BarNodes(buttons: seq<ButtonEntry>): (r: seq<BarNode>)
    ensures |r| == |buttons|
    ensures forall k :: 0 <= k < |buttons| ==> r[k] == NodeFor(buttons[k])
  {
    if buttons == [] then [] else [NodeFor(buttons[0])] + BarNodes(buttons[1..])
  }

  /** The heading of the box: a title label with the graphic when there is a title key, a spacer otherwise. */
  function HeaderFor(titleKey: Option<string>, graphic: Option<Graphic>): Header
  {
    if titleKey.Some? then TitleLabel(titleKey.value, graphic) else Spacer
  }

  /** The layout of the box for an overlay with the given parts. */
  function LayoutOf(titleKey: Option<string>, graphic: Option<Graphic>, content: Content, buttons: seq<ButtonEntry>): BoxLayout
  {
    BoxLayout(HeaderFor(titleKey, graphic), content, if |buttons| > 0 then Some(BarNodes(buttons)) else None)
  }

  /** A title label appears exactly when there is a title key, a bar exactly when there are entries. */
  lemma LayoutStructure(titleKey: Option<string>, graphic: Option<Graphic>, content: Content, buttons: seq<ButtonEntry>)
    ensures LayoutOf(titleKey, graphic, content, buttons).header.TitleLabel? <==> titleKey.Some?
    ensures LayoutOf(titleKey, graphic, content, buttons).buttonBar.Some? <==> |buttons| > 0
    ensures |buttons| > 0 ==> |LayoutOf(titleKey, graphic, content, buttons).buttonBar.value| == |buttons|
  {
  }

  /** The close button is hidden when the overlay is persistent or has no title key. */
  function CloseButtonVisible(o: ModalOverlay): bool
    reads o
  {
    !(o.persistent || o.titleKey.None?)
  }

  /** The box shown for an overlay. */
  function BoxFor(o: ModalOverlay, id: nat): ModalBoxView
    reads o
  {
    ModalBoxView(id, LayoutOf(o.titleKey, o.graphic, o.content, o.buttons), CloseButtonVisible(o))
  }

  /** Builds the button bar node by node. */
  method BuildButtonBar(buttons: seq<ButtonEntry>) returns (nodes: seq<BarNode>)
    ensures nodes == BarNodes(buttons)
  {
    nodes := [];
    for i := 0 to |buttons|
      invariant |nodes| == i
      invariant forall k :: 0 <= k < i ==> nodes[k] == NodeFor(buttons[k])
    {
      nodes := nodes + [NodeFor(buttons[i])];
    }
  }

  /** Builds the box layout for an overlay. */
  method BuildBox(o: ModalOverlay) returns (layout: BoxLayout)
    ensures layout == LayoutOf(o.titleKey, o.graphic, o.content, o.buttons)
    ensures layout.header.TitleLabel? <==> o.titleKey.Some?
    ensures layout.buttonBar.Some? <==> |o.buttons| > 0
  {
    var header := HeaderFor(o.titleKey, o.graphic);
    var bar: Option<seq<BarNode>> := None;
    if |o.buttons| > 0 {
      var nodes := BuildButtonBar(o.buttons);
      bar := Some(nodes);
    }
    layout := BoxLayout(header, o.content, bar);
  }

  datatype Key = Enter | OtherKey

  /** What the controller does to overlay contents and to the pane, in order. */
  datatype Event =
    | ContentClosed(content: Content)
    | ContentDetached(content: Content)
    | ContentAttached(content: Content, overlay: ModalOverlay)
    | BoxShown(id: nat)
    | ModalHidden
    | ActionRun(action: Action)
    | ExceptionLogged

  /** Running a button's action, when it has one. */
  ghost function RunEvents(a: Option<Action>): seq<Event>
  {
    if a.Some? then [ActionRun(a.value)] else []
  }

  /** An overlay-aware content is told it closes, then let go of its overlay. */
  ghost function CloseEvents(c: Content): seq<Event>
  {
    if c.overlayAware then [ContentClosed(c), ContentDetached(c)] else []
  }

  ghost function AttachEvents(o: ModalOverlay): seq<Event>
  {
    if o.content.overlayAware then [ContentAttached(o.content, o)] else []
  }

  /**
    What a change of the overlay property from `prev` to `next` does:
    hide the pane if it was showing `prev` and nothing replaces it, release
    `prev`'s content, then attach and show `next` (or log the failure).
  */
  ghost function SwitchEvents(prev: Option<ModalOverlay>, next: Option<ModalOverlay>, displayed: bool, fails: bool, id: nat): seq<Event>
  {
    (if prev.Some? && displayed && next.None? then [ModalHidden] else [])
    + (if prev.Some? then CloseEvents(prev.value.content) else [])
    + (if next.Some? then AttachEvents(next.value) + (if fails then [ExceptionLogged] else [BoxShown(id)]) else [])
  }

  predicate IsRelease(e: Event)
  {
    e.ContentClosed? || e.ContentDetached? || e.ModalHidden?
  }

  predicate IsSetup(e: Event)
  {
    e.ContentAttached? || e.BoxShown? || e.ExceptionLogged?
  }

  /** Every release step of a switch comes before every setup step. */
  lemma SwitchReleasesFirst(prev: Option<ModalOverlay>, next: Option<ModalOverlay>, displayed: bool, fails: bool, id: nat)
    ensures var e := SwitchEvents(prev, next, displayed, fails, id);
      forall i, j :: 0 <= i < |e| && 0 <= j < |e| && IsRelease(e[i]) && IsSetup(e[j]) ==> i < j
  {
  }

  /** The pane is hidden exactly when a displayed overlay is replaced by none. */
  lemma SwitchHidesIff(prev: Option<ModalOverlay>, next: Option<ModalOverlay>, displayed: bool, fails: bool, id: nat)
    ensures ModalHidden in SwitchEvents(prev, next, displayed, fails, id) <==> prev.Some? && displayed && next.None?
  {
  }

  /** The old content is told it closes before it is detached. */
  lemma SwitchClosesBeforeDetach(prev: ModalOverlay, next: Option<ModalOverlay>, displayed: bool, fails: bool, id: nat)
    requires prev.content.overlayAware
    ensures var e := SwitchEvents(Some(prev), next, displayed, fails, id);
      var k := if displayed && next.None? then 1 else 0;
      k + 2 <= |e| && e[k] == ContentClosed(prev.content) && e[k + 1] == ContentDetached(prev.content)
  {
  }

  /**
    The generated value equality of overlays: the same title key, content,
    graphic, button list and flag, whether or not they are one object.
  */
  predicate OverlayEquals(a: ModalOverlay, b: ModalOverlay)
    reads a, b
  {
    a.titleKey == b.titleKey && a.content == b.content && a.graphic == b.graphic &&
    a.buttons == b.buttons && a.persistent == b.persistent
  }

  /** Whether setting the property from `b` to `a` counts as no change: both null, or equal overlays. */
  predicate SameOverlay(a: Option<ModalOverlay>, b: Option<ModalOverlay>)
    reads (if a.Some? then {a.value} else {}) + (if b.Some? then {b.value} else {})
  {
    (a.None? && b.None?) || (a.Some? && b.Some? && OverlayEquals(a.value, b.value))
  }

  /** The observable state of the controller. */
  datatype PaneState = PaneState(
    overlayContent: Option<ModalOverlay>,
    display: bool,
    shown: Option<ModalBoxView>,
    bgDisabled: bool,
    modalPersistent: bool,
    nextBoxId: nat,
    pendingResets: nat)

  class ModalOverlayComp {
    /** The overlay property the controller is bound to. */
    var overlayContent: Option<ModalOverlay>
    /** The modal pane: whether it is displayed, and the box it holds. */
    var display: bool
    var shown: Option<ModalBoxView>
    var bgDisabled: bool
    var modalPersistent: bool
    var nextBoxId: nat
    /** Resets of the overlay property queued after a failed show. */
    var pendingResets: nat
    ghost var events: seq<Event>

    /**
      The background is disabled exactly while the pane displays a box,
      only while an overlay is set, and always while an overlay is set
      and no reset is queued.
    */
    ghost predicate Valid()
      reads this
    {
      && (bgDisabled <==> display && shown.Some?)
      && (bgDisabled ==> overlayContent.Some?)
      && (overlayContent.Some? && pendingResets == 0 ==> bgDisabled)
    }

    ghost function Snapshot(): PaneState
      reads this
    {
      PaneState(overlayContent, display, shown, bgDisabled, modalPersistent, nextBoxId, pendingResets)
    }

    /** Creating the component shows the overlay already set, if any. */
    constructor (initial: Option<ModalOverlay>)
      ensures Valid()
      ensures initial.None? ==> Snapshot() == PaneState(None, false, None, false, false, 0, 0) && events == []
      ensures initial.Some? ==> Snapshot() == PaneState(initial, true, Some(BoxFor(initial.value, 0)), true, initial.value.persistent, 1, 0)
      ensures initial.Some? ==> events == [BoxShown(0)]
    {
      overlayContent := initial;
      display := false;
      shown := None;
      bgDisabled := false;
      modalPersistent := false;
      nextBoxId := 0;
      pendingResets := 0;
      events := [];
      new;
      if initial.Some? {
        ShowModalBox(initial.value);
      }
    }

    /** Builds the box for `o` and lets the pane show it. */
    method ShowModalBox(o: ModalOverlay)
      modifies this
      ensures Snapshot() == old(Snapshot()).(display := true, shown := Some(BoxFor(o, old(nextBoxId))), bgDisabled := true,
                                             modalPersistent := o.persistent, nextBoxId := old(nextBoxId) + 1)
      ensures events == old(events) + [BoxShown(old(nextBoxId))]
    {
      var layout := BuildBox(o);
      var box := ModalBoxView(nextBoxId, layout, CloseButtonVisible(o));
      nextBoxId := nextBoxId + 1;
      modalPersistent := o.persistent;
      // the pane takes the box as its content, which disables the background,
      // and then displays it
      shown := Some(box);
      bgDisabled := true;
      display := true;
      events := events + [BoxShown(box.id)];
    }

    /**
      Hides the pane without clearing its content. Turning the display off
      re-enables the background; the overlay is already unset, so the
      listener's reset changes nothing.
    */
    method HideModal()
      requires overlayContent.None?
      modifies this
      ensures Snapshot() == old(Snapshot()).(display := false, bgDisabled := false)
      ensures events == old(events) + [ModalHidden]
    {
      display := false;
      bgDisabled := false;
      events := events + [ModalHidden];
    }

    /** The listener on the overlay property, run after it changed from `prev` to `next`. */
    method OverlayChanged(prev: Option<ModalOverlay>, next: Option<ModalOverlay>, fails: bool)
      requires overlayContent == next
      modifies this
      ensures events == old(events) + SwitchEvents(prev, next, old(display), fails, old(nextBoxId))
      ensures next.None? ==>
        Snapshot() == old(Snapshot()).(display := old(display) && !prev.Some?, bgDisabled := old(bgDisabled) && !(prev.Some? && old(display)))
      ensures next.Some? && fails ==> Snapshot() == old(Snapshot()).(pendingResets := old(pendingResets) + 1)
      ensures next.Some? && !fails ==>
        Snapshot() == old(Snapshot()).(display := true, shown := Some(BoxFor(next.value, old(nextBoxId))), bgDisabled := true,
                                       modalPersistent := next.value.persistent, nextBoxId := old(nextBoxId) + 1)
    {
      if prev.Some? && display && next.None? {
        HideModal();
      }
      if prev.Some? {
        events := events + CloseEvents(prev.value.content);
      }
      if next.Some? {
        events := events + AttachEvents(next.value);
        if fails {
          // the exception is logged and a reset of the property is queued
          events := events + [ExceptionLogged];
          pendingResets := pendingResets + 1;
        } else {
          ShowModalBox(next.value);
        }
      }
    }

    /**
      Sets the overlay property. The property takes `v` in any case, but
      its listener runs only when `v` is not equal to the old value, so an
      equal copy keeps the box already shown. `fails` says whether building
      or showing the new overlay's box throws.
    */
    method SetOverlay(v: Option<ModalOverlay>, fails: bool)
      modifies this
      ensures old(SameOverlay(v, overlayContent)) ==> Snapshot() == old(Snapshot()).(overlayContent := v) && events == old(events)
      ensures !old(SameOverlay(v, overlayContent)) ==>
        events == old(events) + SwitchEvents(old(overlayContent), v, old(display), fails, old(nextBoxId))
      ensures !old(SameOverlay(v, overlayContent)) && v.None? ==>
        Snapshot() == old(Snapshot()).(overlayContent := None, display := false, bgDisabled := old(bgDisabled) && !old(display))
      ensures !old(SameOverlay(v, overlayContent)) && v.Some? && fails ==>
        Snapshot() == old(Snapshot()).(overlayContent := v, pendingResets := old(pendingResets) + 1)
      ensures !old(SameOverlay(v, overlayContent)) && v.Some? && !fails ==>
        Snapshot() == old(Snapshot()).(overlayContent := v, display := true, shown := Some(BoxFor(v.value, old(nextBoxId))),
                                       bgDisabled := true, modalPersistent := v.value.persistent, nextBoxId := old(nextBoxId) + 1)
      ensures old(Valid()) ==> Valid()
    {
      var prev := overlayContent;
      var same := SameOverlay(v, prev);
      overlayContent := v;
      if !same {
        OverlayChanged(prev, v, fails);
      }
    }

    /**
      A click on a button: its action runs if it has one, the overlay is
      cleared exactly when it is a close button, and the event is consumed.
    */
    method ClickButton(mb: ModalButton) returns (consumed: bool)
      requires Valid()
      modifies this
      ensures Valid()
      ensures consumed
      ensures mb.close && old(overlayContent).Some? ==>
        Snapshot() == old(Snapshot()).(overlayContent := None, display := false, bgDisabled := false) &&
        events == old(events) + RunEvents(mb.action) + SwitchEvents(old(overlayContent), None, old(display), false, old(nextBoxId))
      ensures !(mb.close && old(overlayContent).Some?) ==>
        Snapshot() == old(Snapshot()) && events == old(events) + RunEvents(mb.action)
    {
      if mb.action.Some? {
        events := events + [ActionRun(mb.action.value)];
      }
      if mb.close {
        SetOverlay(None, false);
      }
      consumed := true;
    }

    /**
      The key filter of the pane: Enter triggers the first default button
      of the current overlay exactly as a click would, and consumes the
      event; anything else leaves everything as it was.
    */
    method PressKey(key: Key) returns (consumed: bool)
      requires Valid()
      modifies this
      ensures Valid()
      ensures consumed <==> key == Enter && old(overlayContent).Some? && DefaultButtonOf(old(overlayContent).value).Some?
      ensures !consumed ==> Snapshot() == old(Snapshot()) && events == old(events)
      ensures consumed ==>
        var mb := DefaultButtonOf(old(overlayContent).value).value;
        (mb.close ==>
          Snapshot() == old(Snapshot()).(overlayContent := None, display := false, bgDisabled := false) &&
          events == old(events) + RunEvents(mb.action) + SwitchEvents(old(overlayContent), None, old(display), false, old(nextBoxId))) &&
        (!mb.close ==> Snapshot() == old(Snapshot()) && events == old(events) + RunEvents(mb.action))
    {
      consumed := false;
      if key == Enter {
        var ov := overlayContent;
        if ov.Some? {
          var def := DefaultButtonOf(ov.value);
          if def.Some? {
            consumed := ClickButton(def.value);
          }
        }
      }
    }

    /** The box's own close control clears the overlay and consumes the event. */
    method CloseBoxClicked() returns (consumed: bool)
      requires Valid()
      modifies this
      ensures Valid() && consumed
      ensures Snapshot() == old(Snapshot()).(overlayContent := None, display := old(display) && old(overlayContent).None?,
                                             bgDisabled := false)
      ensures events == old(events) + (if old(overlayContent).Some? then SwitchEvents(old(overlayContent), None, old(display), false, old(nextBoxId)) else [])
    {
      SetOverlay(None, false);
      consumed := true;
    }

    /**
      The pane turned its display off by itself (for instance on Escape):
      the overlay is cleared and the background re-enabled.
    */
    method DisplayTurnedOff()
      requires Valid()
      modifies this
      ensures Valid()
      ensures old(display) ==>
        Snapshot() == old(Snapshot()).(overlayContent := None, display := false, bgDisabled := false) &&
        events == old(events) + (if old(overlayContent).Some? then CloseEvents(old(overlayContent).value.content) else [])
      ensures !old(display) ==> Snapshot() == old(Snapshot()) && events == old(events)
    {
      if display {
        display := false;
        SetOverlay(None, false);
        bgDisabled := false;
      }
    }

    /** The pane's content was cleared: the overlay is cleared and the background re-enabled. */
    method ContentCleared()
      requires Valid()
      modifies this
      ensures Valid()
      ensures old(shown).Some? ==>
        Snapshot() == old(Snapshot()).(overlayContent := None, shown := None, bgDisabled := false,
                                       display := old(display) && old(overlayContent).None?) &&
        events == old(events) + (if old(overlayContent).Some? then SwitchEvents(old(overlayContent), None, old(display), false, old(nextBoxId)) else [])
      ensures old(shown).None? ==> Snapshot() == old(Snapshot()) && events == old(events)
    {
      if shown.Some? {
        shown := None;
        SetOverlay(None, false);
        bgDisabled := false;
      }
    }

    /** Runs one queued reset after a failed show: the overlay property is set to none. */
    method RunPendingReset()
      requires Valid()
      modifies this
      ensures Valid()
      ensures old(pendingResets) > 0 ==>
        Snapshot() == old(Snapshot()).(overlayContent := None, pendingResets := old(pendingResets) - 1,
                                       display := old(display) && old(overlayContent).None?,
                                       bgDisabled := old(bgDisabled) && old(overlayContent).None?) &&
        events == old(events) + (if old(overlayContent).Some? then SwitchEvents(old(overlayContent), None, old(display), false, old(nextBoxId)) else [])
      ensures old(pendingResets) == 0 ==> Snapshot() == old(Snapshot()) && events == old(events)
    {
      if pendingResets > 0 {
        pendingResets := pendingResets - 1;
        SetOverlay(None, false);
      }
    }
  }
}
