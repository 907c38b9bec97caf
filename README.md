# File chooser, modal overlay and constant-table rules of the XPipe desktop application

This project models, in Dafny, five small parts of the XPipe desktop
application's user interface layer and proves properties of them:

- **The file chooser dialog** (`BrowserFileChooserSessionComp`): which
  connection entries are offered, the guard a click on an entry passes
  before a file system is opened, how confirming and discarding reach the
  browsing session model, how a single-file chooser derives its result
  from the final list (the first file, or none), and what the dialog's
  panes hold. The browsing session model itself is a collaborator: each
  call on it is appended to a trace shared with the dialog window, so the
  order of "close the window, then finish the chooser" is observable.
- **The modal overlay value** (`ModalOverlay`): a title key, a content
  component and a graphic, an ordered list of button-bar entries that
  grows in place, and a persistent flag that can only be switched on.
- **The modal overlay controller** (`ModalOverlayComp`): the overlay
  property, the modal pane's display and content, whether the background
  is disabled, the Enter key and button click handlers, the listener that
  releases the old overlay's content before attaching and showing the new
  one, the queued reset after a failed show, and the structure of the box
  built for an overlay (title label or spacer, button bar or none, close
  button visible or hidden).
- **The password manager command templates**: the six templates, their
  ids and documentation links, the operating-system dependence of the
  Keeper command and of the macOS keychain's selectability, and the
  offered list, which keeps the declared order and drops what is not
  selectable.
- **The documentation links**: the page table and the link, which is the
  documentation base URL followed by the page.

Modules: `Wrappers` (`Option`, standing for Java's `null`),
`DocumentationLinks`, `PasswordManagerTemplates`, `ModalOverlays`,
`ModalOverlayComps` and `BrowserFileChooser`, one per source file.

Modelling choices:

- The local operating system is a parameter (`OsType`) of the template
  functions, since the source reads it from the running system.
- The button factories `ModalButton.cancel()` and `ModalButton.ok(action)`
  are not part of this model: `WithDefaultButtons` takes the cancel button
  as a value and the ok factory as a function.
- The interface's default `isSelectable` (in `PrefsChoiceValue`, which is
  not part of this model) is taken to be `true`; only the macOS keychain
  overrides it.
- The atlantafx modal pane is not part of this model. It is taken to behave
  as follows: `show(box)` makes the box its content and turns the display
  on; `hide(false)` turns the display off and keeps the content.
  `DisplayTurnedOff` stands for the pane turning its display off for any
  reason outside the controller's own listeners. The pane does not do
  this on Escape or an outside click while it is persistent. The model
  records that flag (`modalPersistent`) but does not assume anything
  about when the pane turns itself off.
- A JavaFX property always takes the value it is set to, but notifies its
  change listener only when the new value is not `equals` to the old one.
  `ModalOverlay` is a Lombok `@Value`, so overlays are compared field by
  field (title key, content, graphic, buttons, persistent flag), as
  `OverlayEquals` and `SameOverlay` state. Contents, graphics and buttons
  are compared as values.
- Every callback that the source hands to another thread
  (`runLaterIfNeeded`, `runAsync`, `runFailableAsync`) runs as one
  sequential step. The one `Platform.runLater` whose delay matters (the reset
  after a failed show) is a queued reset counted in `pendingResets` and run
  by `RunPendingReset`.
- An exception while showing an overlay is a parameter `fails`. It stands
  for the content's region failing to build. The content is then already
  attached and nothing new is shown.
- A click on a button and the Enter key share one handler (`ClickButton`).
  The source writes out the same steps twice.
- De-duplicating opens, finishing exactly once and resolving the result
  per selection mode belong to the browsing session model. Its source is
  not part of this model. The dialog's own guard is modelled, and the
  session model only records the calls it receives.

## Model

| member | source | states |
|---|---|---|
| BrowserFileChooser.Applicable | app/src/main/java/io/xpipe/app/browser/BrowserFileChooserSessionComp.java:100-103 | an entry is offered exactly when its store is a shell store and its validity is usable |
| BrowserFileChooser.OfferedEntries | app/src/main/java/io/xpipe/app/browser/BrowserFileChooserSessionComp.java:100-103 | an entry is offered exactly when it is in the catalogue and is a shell store with a usable validity |
| BrowserFileChooser.Decide | app/src/main/java/io/xpipe/app/browser/BrowserFileChooserSessionComp.java:106-119 | a click opens exactly when the entry is usable, a shell store and not the one already open; an unusable entry is rejected first, whatever else holds |
| BrowserFileChooser.ActionOpensOnce | app/src/main/java/io/xpipe/app/browser/BrowserFileChooserSessionComp.java:107-119 | a click requests a file system at most once, exactly once for an offered entry that is not open, and always with no initial path and the caller's busy flag |
| BrowserFileChooser.UnusableMakesNoCall | app/src/main/java/io/xpipe/app/browser/BrowserFileChooserSessionComp.java:107-109 | a click on an unusable entry makes no call on the session model at all |
| BrowserFileChooser.OfferedEntryOpens | app/src/main/java/io/xpipe/app/browser/BrowserFileChooserSessionComp.java:100-119 | every offered entry that is not already open is opened by a click |
| BrowserFileChooser.BrowserFileChooserSessionComp.Action | app/src/main/java/io/xpipe/app/browser/BrowserFileChooserSessionComp.java:104-121 | the calls a click makes on the session model are exactly a query of the selected entry (unless the entry is unusable) then, when the guard passes, one open request |
| BrowserFileChooser.SingleFileResult | app/src/main/java/io/xpipe/app/browser/BrowserFileChooserSessionComp.java:68-70 | the single-file result is the first file of the finished list, and is absent exactly when the list is empty |
| BrowserFileChooser.Deliver | app/src/main/java/io/xpipe/app/browser/BrowserFileChooserSessionComp.java:68-70 | the finish callback hands its own consumer the first file of the list, and nothing exactly when the list is empty |
| BrowserFileChooser.SingleFileHandlerDelivers | app/src/main/java/io/xpipe/app/browser/BrowserFileChooserSessionComp.java:68-70 | the handler a single-file chooser installs delivers `f` for a list starting with `f`, and nothing for the empty list, to its consumer |
| BrowserFileChooser.SingleFileIgnoresRest | app/src/main/java/io/xpipe/app/browser/BrowserFileChooserSessionComp.java:69 | the files after the first never change the single-file result |
| BrowserFileChooser.WindowTitleKey | app/src/main/java/io/xpipe/app/browser/BrowserFileChooserSessionComp.java:58 | the window title key is `saveFileTitle` for saving and `openFileTitle` for opening |
| BrowserFileChooser.OpenSingleFile | app/src/main/java/io/xpipe/app/browser/BrowserFileChooserSessionComp.java:51-75 | a fresh session in single-file mode, its finish callback set to deliver the first file, its only call an open of the given store with no path and no busy flag, and the title key chosen by the save flag |
| BrowserFileChooser.BrowserFileChooserSessionComp.Finish | app/src/main/java/io/xpipe/app/browser/BrowserFileChooserSessionComp.java:88-91 | confirming closes the window and then finishes the chooser, in that order, and makes no other call |
| BrowserFileChooser.BrowserFileChooserSessionComp.Discard | app/src/main/java/io/xpipe/app/browser/BrowserFileChooserSessionComp.java:94-96 | discarding only finishes without a choice and leaves the window as it was |
| BrowserFileChooser.BrowserFileChooserSessionComp.SelectedEntryChanged | app/src/main/java/io/xpipe/app/browser/BrowserFileChooserSessionComp.java:145-153 | when the model's selected tab changes, the file-system pane holds exactly that tab, or nothing when none is selected |
| BrowserFileChooser.BrowserFileChooserSessionComp.FileSelectionChanged | app/src/main/java/io/xpipe/app/browser/BrowserFileChooserSessionComp.java:174-188 | when the model's file selection changes, the bottom bar is replaced by the fields for the whole new selection |
| BrowserFileChooser.SelectionFields | app/src/main/java/io/xpipe/app/browser/BrowserFileChooserSessionComp.java:176-186 | one read-only field per selected entry, holding that entry's path, in selection order |
| BrowserFileChooser.BrowserFileChooserSessionComp.constructor | app/src/main/java/io/xpipe/app/browser/BrowserFileChooserSessionComp.java:46-49 | the dialog holds the given window and session model, which share one trace |
| BrowserFileChooser.SessionModel.constructor | app/src/main/java/io/xpipe/app/browser/BrowserFileChooserSessionComp.java:57 | a session model in the given selection mode, with nothing selected and no finish callback |
| BrowserFileChooser.SessionModel.GetSelectedEntry | app/src/main/java/io/xpipe/app/browser/BrowserFileChooserSessionComp.java:112 | returns the currently selected tab and records the query |
| BrowserFileChooser.SessionModel.GetFileSelection | app/src/main/java/io/xpipe/app/browser/BrowserFileChooserSessionComp.java:174 | returns the session's current file selection |
| BrowserFileChooser.SessionModel.OpenFileSystemAsync | app/src/main/java/io/xpipe/app/browser/BrowserFileChooserSessionComp.java:118 | records one open request with its entry, initial path and busy flag |
| BrowserFileChooser.SessionModel.FinishChooser | app/src/main/java/io/xpipe/app/browser/BrowserFileChooserSessionComp.java:90 | records the finish call |
| BrowserFileChooser.SessionModel.FinishWithoutChoice | app/src/main/java/io/xpipe/app/browser/BrowserFileChooserSessionComp.java:95 | records the finish-without-choice call |
| BrowserFileChooser.SessionModel.SetOnFinish | app/src/main/java/io/xpipe/app/browser/BrowserFileChooserSessionComp.java:68 | installs the finish callback and changes nothing else |
| BrowserFileChooser.Stage.Close | app/src/main/java/io/xpipe/app/browser/BrowserFileChooserSessionComp.java:89 | the window is no longer showing and its closing is recorded |
| ModalOverlays.ModalOverlay.Of | app/src/main/java/io/xpipe/app/comp/base/ModalOverlay.java:26-28 | an overlay with the given title key, content and graphic, no buttons and not persistent |
| ModalOverlays.ModalOverlay.OfContent | app/src/main/java/io/xpipe/app/comp/base/ModalOverlay.java:18-20 | the same with no title key and no graphic |
| ModalOverlays.ModalOverlay.OfTitled | app/src/main/java/io/xpipe/app/comp/base/ModalOverlay.java:22-24 | the same with the given title key and no graphic |
| ModalOverlays.ModalOverlay.AddButton | app/src/main/java/io/xpipe/app/comp/base/ModalOverlay.java:50-53 | the button is appended after all earlier entries, which are unchanged, the flag is unchanged, and the same button is returned |
| ModalOverlays.ModalOverlay.AddButtonBarComp | app/src/main/java/io/xpipe/app/comp/base/ModalOverlay.java:55-57 | the component is appended to the same list after all earlier entries |
| ModalOverlays.ModalOverlay.WithDefaultButtons | app/src/main/java/io/xpipe/app/comp/base/ModalOverlay.java:30-34 | the list grows by exactly the cancel button and then the ok button for the action, and the same overlay is returned |
| ModalOverlays.ModalOverlay.WithDefaultButtonsNoAction | app/src/main/java/io/xpipe/app/comp/base/ModalOverlay.java:36-38 | the same as with the empty action |
| ModalOverlays.ModalOverlay.Persist | app/src/main/java/io/xpipe/app/comp/base/ModalOverlay.java:59-61 | the overlay is persistent afterwards whatever it was before, so a second call changes nothing, and the buttons are unchanged |
| ModalOverlayComps.DefaultButtonIndex | app/src/main/java/io/xpipe/app/comp/base/ModalOverlayComp.java:111-113 | the position of the first entry that is a button marked default; entries before it are not, and absent exactly when no entry is |
| ModalOverlayComps.DefaultButtonOf | app/src/main/java/io/xpipe/app/comp/base/ModalOverlayComp.java:111-115 | the button Enter triggers is the first default button of the overlay's list (every entry before it is not one), and there is none exactly when no entry is a default button |
| ModalOverlayComps.ModalOverlayComp.PressKey | app/src/main/java/io/xpipe/app/comp/base/ModalOverlayComp.java:107-126 | Enter on an overlay with a default button acts as a click on it and consumes the event; any other key, no overlay or no default button changes nothing and does not consume |
| ModalOverlayComps.ModalOverlayComp.ClickButton | app/src/main/java/io/xpipe/app/comp/base/ModalOverlayComp.java:324-332 | the action runs when present, the overlay is cleared (and the pane hidden) exactly for a close button, and the event is always consumed |
| ModalOverlayComps.ModalOverlayComp.ContentCleared | app/src/main/java/io/xpipe/app/comp/base/ModalOverlayComp.java:89-98 | the pane's content becoming empty clears the overlay and re-enables the background |
| ModalOverlayComps.ModalOverlayComp.DisplayTurnedOff | app/src/main/java/io/xpipe/app/comp/base/ModalOverlayComp.java:100-105 | the display turning off clears the overlay, releases its content and re-enables the background |
| ModalOverlayComps.OverlayEquals | app/src/main/java/io/xpipe/app/comp/base/ModalOverlay.java:13-48 | two overlays are equal exactly when their title keys, contents, graphics, button lists and flags are |
| ModalOverlayComps.SameOverlay | app/src/main/java/io/xpipe/app/comp/base/ModalOverlayComp.java:128 | setting the property counts as no change exactly for two nulls or two equal overlays |
| ModalOverlayComps.ModalOverlayComp.SetOverlay | app/src/main/java/io/xpipe/app/comp/base/ModalOverlayComp.java:128-159 | the property takes the new value; setting an equal value (both null, or an equal overlay) runs no listener and keeps the box shown; clearing hides a displayed pane and re-enables the background; a new overlay is shown, or on failure a reset is queued; the background stays disabled exactly while a box is displayed |
| ModalOverlayComps.ModalOverlayComp.OverlayChanged | app/src/main/java/io/xpipe/app/comp/base/ModalOverlayComp.java:130-157 | hide only when the old overlay was displayed and nothing replaces it, release the old content, then attach and show the new overlay or log the failure and queue a reset |
| ModalOverlayComps.ModalOverlayComp.HideModal | app/src/main/java/io/xpipe/app/comp/base/ModalOverlayComp.java:130-134 | hiding turns the display off and re-enables the background, keeping the pane's content |
| ModalOverlayComps.ModalOverlayComp.RunPendingReset | app/src/main/java/io/xpipe/app/comp/base/ModalOverlayComp.java:152-157 | a queued reset after a failed show sets the overlay property to none |
| ModalOverlayComps.ModalOverlayComp.CloseBoxClicked | app/src/main/java/io/xpipe/app/comp/base/ModalOverlayComp.java:247-250 | the box's close control clears the overlay and consumes the event |
| ModalOverlayComps.ModalOverlayComp.ShowModalBox | app/src/main/java/io/xpipe/app/comp/base/ModalOverlayComp.java:169-179 | the pane displays the box built for the overlay, takes the overlay's persistence, disables the background, and hides the close button when the overlay is persistent or has no title key |
| ModalOverlayComps.ModalOverlayComp.constructor | app/src/main/java/io/xpipe/app/comp/base/ModalOverlayComp.java:161-164 | an overlay already set when the component is created is shown at once |
| ModalOverlayComps.SwitchReleasesFirst | app/src/main/java/io/xpipe/app/comp/base/ModalOverlayComp.java:130-151 | on a change of overlay every release step (hide, close, detach) comes before every setup step (attach, show) |
| ModalOverlayComps.SwitchHidesIff | app/src/main/java/io/xpipe/app/comp/base/ModalOverlayComp.java:130-134 | the pane is hidden exactly when the old overlay was present and displayed and the new one is none |
| ModalOverlayComps.SwitchClosesBeforeDetach | app/src/main/java/io/xpipe/app/comp/base/ModalOverlayComp.java:136-143 | the old content is told it closes and then detached |
| ModalOverlayComps.HeaderFor | app/src/main/java/io/xpipe/app/comp/base/ModalOverlayComp.java:207-216 | a title label with the graphic when there is a title key, a spacer otherwise |
| ModalOverlayComps.CloseButtonVisible | app/src/main/java/io/xpipe/app/comp/base/ModalOverlayComp.java:174-179 | the close button is visible exactly when the overlay is not persistent and has a title key |
| ModalOverlayComps.BuildBox | app/src/main/java/io/xpipe/app/comp/base/ModalOverlayComp.java:195-231 | the box gets a title label exactly when there is a title key, otherwise a spacer, and a button bar exactly when the list is non-empty |
| ModalOverlayComps.BuildButtonBar | app/src/main/java/io/xpipe/app/comp/base/ModalOverlayComp.java:218-228 | the bar built by the loop is the node sequence of the list |
| ModalOverlayComps.NodeFor | app/src/main/java/io/xpipe/app/comp/base/ModalOverlayComp.java:223 | a button entry becomes the button `toButton` builds, accented exactly when it is the default button; a component entry becomes its own region |
| ModalOverlayComps.BarNodes | app/src/main/java/io/xpipe/app/comp/base/ModalOverlayComp.java:222-228 | one node per entry in list order: a button node, accented exactly for the default button, or the component itself |
| ModalOverlayComps.LayoutStructure | app/src/main/java/io/xpipe/app/comp/base/ModalOverlayComp.java:207-231 | a title label exactly when there is a title key, a bar exactly when there are entries, with one node per entry |
| PasswordManagerTemplates.Template | app/src/main/java/io/xpipe/app/password/PasswordManagerCommandTemplate.java:15-121 | the command of each template, with `$KEY` for the secret's key and the Keeper executable chosen by the system |
| PasswordManagerTemplates.DocsLink | app/src/main/java/io/xpipe/app/password/PasswordManagerCommandTemplate.java:22-115 | the documentation link of each template |
| PasswordManagerTemplates.Id | app/src/main/java/io/xpipe/app/password/PasswordManagerCommandTemplate.java:27-120 | the id of each template |
| PasswordManagerTemplates.IsSelectable | app/src/main/java/io/xpipe/app/password/PasswordManagerCommandTemplate.java:99-102 | the macOS keychain is selectable exactly on macOS, every other template always |
| PasswordManagerTemplates.SelectableOnly | app/src/main/java/io/xpipe/app/password/PasswordManagerCommandTemplate.java:123-126 | a template is kept exactly when it is in the list and selectable, and nothing is added |
| PasswordManagerTemplates.SelectableDistributes | app/src/main/java/io/xpipe/app/password/PasswordManagerCommandTemplate.java:123-126 | the filter of a concatenation is the concatenation of the filters, so order and repetitions are kept |
| PasswordManagerTemplates.All | app/src/main/java/io/xpipe/app/password/PasswordManagerCommandTemplate.java:123-126 | the offered list holds every selectable template and no other |
| PasswordManagerTemplates.AllSelectable | app/src/main/java/io/xpipe/app/password/PasswordManagerCommandTemplate.java:125 | every offered template is selectable |
| PasswordManagerTemplates.AllOnMacOs | app/src/main/java/io/xpipe/app/password/PasswordManagerCommandTemplate.java:123-126 | on macOS all six are offered in the declared order |
| PasswordManagerTemplates.AllElsewhere | app/src/main/java/io/xpipe/app/password/PasswordManagerCommandTemplate.java:123-126 | elsewhere the first five are offered in the declared order and the macOS keychain is dropped |
| PasswordManagerTemplates.MacosKeychainOfferedIff | app/src/main/java/io/xpipe/app/password/PasswordManagerCommandTemplate.java:99-102 | the macOS keychain is offered exactly when the local system is macOS |
| PasswordManagerTemplates.TemplateHasPlaceholder | app/src/main/java/io/xpipe/app/password/PasswordManagerCommandTemplate.java:15-110 | every template, on every system, contains the key placeholder |
| PasswordManagerTemplates.KeeperTemplateShape | app/src/main/java/io/xpipe/app/password/PasswordManagerCommandTemplate.java:107-110 | the Keeper command starts with `@keeper` on Windows and with `keeper` elsewhere, and the same arguments follow |
| PasswordManagerTemplates.IdsDistinct | app/src/main/java/io/xpipe/app/password/PasswordManagerCommandTemplate.java:27-119 | no two templates share an id |
| DocumentationLinks.Page | app/src/main/java/io/xpipe/app/util/DocumentationLink.java:4-17 | the page of each constant; only the index page is empty |
| DocumentationLinks.GetLink | app/src/main/java/io/xpipe/app/util/DocumentationLink.java:29-31 | a link starts with the documentation base URL and the rest is the constant's page |
| DocumentationLinks.IndexLinkIsBase | app/src/main/java/io/xpipe/app/util/DocumentationLink.java:4 | the index constant's link is exactly the base URL |
| DocumentationLinks.PagesDistinct | app/src/main/java/io/xpipe/app/util/DocumentationLink.java:4-17 | distinct constants have distinct pages |
| DocumentationLinks.LinksDistinct | app/src/main/java/io/xpipe/app/util/DocumentationLink.java:4-31 | distinct constants have distinct links |
| DocumentationLinks.OpenLink | app/src/main/java/io/xpipe/app/util/DocumentationLink.java:25-27 | opening a constant hands exactly its link to the browser launcher |
| DocumentationLinks.Hyperlinks.Open | app/src/main/java/io/xpipe/app/util/DocumentationLink.java:26 | the launcher records the URL it is asked to open |

## Left out

- Threading: every `runAsync`, `runFailableAsync` and `runLaterIfNeeded` callback runs as one sequential step. Busy-flag handling inside the session model is not modelled.
- The browsing session model's internals: opening file systems, accumulating the selection, calling the finish callback. Its calls are only recorded. `BrowserFileChooserSessionModel` is not part of this model.
- BrowserFileChooser.SessionModel.OpenFileSystemAsync: does not change the selected entry, because what the session model does with the request is not part of this model.
- Window handling in the file chooser: the focused window lookup, refocusing it when the chooser closes, the preferred size, style classes, the split pane and its saved width, and the connection list's highlight of the open entry.
- BrowserFileChooser.OfferedEntries: the filtering is done by the connection list component, which is not part of this model. The model assumes it keeps exactly the applicable entries in catalogue order, and states membership, not order.
- ModalOverlay's Lombok-generated builder, `with` copies and accessors, and `show`, `showAndWait`, `close`, `isShowing`: these delegate to the dialog manager, which is not part of this model.
- The hide action of `ModalOverlayComp` (`getHideAction`, minimising): the `ModalOverlay` file modelled here declares no such field.
- Rendering in ModalOverlayComp: a button's `augment` hook (lines 320-322, not a field of the `ModalButton` datatype), animations and timelines, opacity, layout sizes (floating point), focus listeners, font sizes, style classes, translated title text (the model keeps the key), the graphic node, and the loading overlay wrapping for busy contents.
- Button actions, once run, are recorded and not executed. Their own effects are outside the model.
- ModalOverlayComps.ModalOverlayComp.constructor: does not model a failure of the initial `showModalBox` (lines 161-164 have no try). `createSimple` then throws and no region is returned, but the component object exists and the listeners registered at lines 89-159 stay attached, including the one at line 128 on the shared overlay property. What those listeners do afterwards is not modelled; the constructor always succeeds.
- ModalOverlayComps.ModalOverlayComp.ShowModalBox: an exception thrown after the pane has shown the box is not modelled. Only a failure before anything is shown is modelled.
- The template documentation links are modelled as constants (`DocsLink`) and nothing is proved about them. `Hyperlinks.open`'s browser launch is process I/O; the launcher only records the URL.
- StoreCreationComp, AppearanceCategory, DesktopHelper and TerminalMultiplexer: UI layout, preference wiring and operating-system process calls with no rule to state.
