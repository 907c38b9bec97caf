/**
  A modal overlay: a title key, a content component, an optional title
  graphic, an ordered list of button-bar entries that grows in place,
  and a `persistent` flag that can only be switched on.
*/
module ModalOverlays {
  import opened Wrappers

  /** A runnable a button triggers; `NoOp` is the empty action `() -> {}`. */
  datatype Action = NoOp | Run(id: nat)

  /**
    The content component of an overlay. `overlayAware` says whether it is
    a content component that is told about the overlay hosting it and
    about its closing.
  */
  datatype Content = Content(id: nat, overlayAware: bool)

  datatype Graphic = Graphic(id: nat)

  /** A component placed in the button bar in place of a button. */
  datatype BarComp = BarComp(id: nat)

  /** A button: its label key, its action (possibly absent), whether it closes the overlay, whether Enter triggers it. */
  datatype ModalButton = ModalButton(key: Option<string>, action: Option<Action>, close: bool, defaultButton: bool)

  /** One entry of the button list, which holds buttons and bar components alike. */
  datatype ButtonEntry = Button(button: ModalButton) | Comp(comp: BarComp)

  class ModalOverlay {
    const titleKey: Option<string>
    const content: Content
    const graphic: Option<Graphic>
    var buttons: seq<ButtonEntry>
    var persistent: bool

    /** The full form of `of`: no buttons yet, and not persistent. */
    constructor Of(titleKey: Option<string>, content: Content, graphic: Option<Graphic>)
      ensures this.titleKey == titleKey && this.content == content && this.graphic == graphic
      ensures buttons == [] && !persistent
    {
      this.titleKey := titleKey;
      this.content := content;
      this.graphic := graphic;
      buttons := [];
      persistent := false;
    }

    /** `of(content)`: no title key and no graphic. */
    static method OfContent(content: Content) returns (o: ModalOverlay)
      ensures fresh(o)
      ensures o.titleKey == None && o.content == content && o.graphic == None
      ensures o.buttons == [] && !o.persistent
    {
      o := new ModalOverlay.Of(None, content, None);
    }

    /** `of(titleKey, content)`: no graphic. */
    static method OfTitled(titleKey: string, content: Content) returns (o: ModalOverlay)
      ensures fresh(o)
      ensures o.titleKey == Some(titleKey) && o.content == content && o.graphic == None
      ensures o.buttons == [] && !o.persistent
    {
      o := new ModalOverlay.Of(Some(titleKey), content, None);
    }

    /** Appends a button after all existing entries and hands the same button back. */
    method AddButton(button: ModalButton) returns (r: ModalButton)
      modifies this
      ensures buttons == old(buttons) + [Button(button)]
      ensures persistent == old(persistent)
      ensures r == button
    {
      buttons := buttons + [Button(button)];
      r := button;
    }

    /** Appends a bar component after all existing entries. */
    method AddButtonBarComp(comp: BarComp)
      modifies this
      ensures buttons == old(buttons) + [Comp(comp)]
      ensures persistent == old(persistent)
    {
      buttons := buttons + [Comp(comp)];
    }

    /**
      Appends the cancel button and then the ok button running `action`.
      The two factories are outside the model: `cancel` is the cancel
      button and `ok` builds the ok button for an action.
    */
    method WithDefaultButtons(cancel: ModalButton, ok: Action -> ModalButton, action: Action) returns (r: ModalOverlay)
      modifies this
      ensures buttons == old(buttons) + [Button(cancel), Button(ok(action))]
      ensures persistent == old(persistent)
      ensures r == this
    {
      var _ := AddButton(cancel);
      var _ := AddButton(ok(action));
      r := this;
    }

    /** The same with the empty action. */
    method WithDefaultButtonsNoAction(cancel: ModalButton, ok: Action -> ModalButton) returns (r: ModalOverlay)
      modifies this
      ensures buttons == old(buttons) + [Button(cancel), Button(ok(NoOp))]
      ensures persistent == old(persistent)
      ensures r == this
    {
      r := WithDefaultButtons(cancel, ok, NoOp);
    }

    /**
      Marks the overlay persistent. The new state does not depend on the
      old flag, so a second call changes nothing.
    */
    method Persist()
      modifies this
      ensures persistent
      ensures buttons == old(buttons)
    {
      persistent := true;
    }
  }
}
