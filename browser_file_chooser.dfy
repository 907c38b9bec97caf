/**
  The file chooser dialog around a browsing session model: which
  connection entries are offered, when a click on an entry opens a file
  system, how confirm and discard reach the model, how a single-file
  result is derived, and what the dialog's panes hold. The session model
  itself is a collaborator whose calls are recorded, in order, on a
  shared trace together with the closing of the window.
*/
module BrowserFileChooser {
  import opened Wrappers

  /** A reference to a stored connection entry, compared by identity. */
  datatype EntryRef = EntryRef(id: nat)

  /** A stored connection entry: whether its store is a shell store and whether its validity is usable. */
  datatype StoreEntry = StoreEntry(ref: EntryRef, shellStore: bool, usable: bool)

  datatype SelectionMode = SingleFile | MultipleFiles | Directory | AnyFile | All

  /** A chosen file: the connection it belongs to and its path there. */
  datatype FileReference = FileReference(entry: EntryRef, path: string)

  /** An entry of the file list that the user selected; only its path is observed. */
  datatype BrowserEntry = BrowserEntry(path: string)

  /** The busy flag a caller hands in; the session model sets and clears it. */
  datatype BusyFlag = BusyFlag(id: nat)

  /** The file-system tab currently open in the session, for the entry it browses. */
  datatype TabModel = TabModel(entry: EntryRef)

  /** A read-only field of the bottom bar showing one selected path. */
  datatype SelectionField = SelectionField(text: string, editable: bool)

  /** The consumer a single-file chooser hands its result to. */
  datatype FileConsumer = FileConsumer(id: nat)

  /** The callback run when the session finishes: here, deliver the first chosen file to a consumer. */
  datatype FinishHandler = DeliverFirst(consumer: FileConsumer)

  /** The calls observed, in order. */
  datatype Call =
    | StageClosed
    | SelectedEntryQueried
    | FileSystemOpenRequested(entry: EntryRef, initialPath: Option<string>, busy: Option<BusyFlag>)
    | ChooserFinished
    | ChooserFinishedWithoutChoice

  /** Whether an entry is offered in the connection list: a shell store whose validity is usable. */
  predicate Applicable(e: StoreEntry)
  {
    e.shellStore && e.usable
  }

  /** The entries offered, in catalogue order. */
  function OfferedEntries(entries: seq<StoreEntry>): (r: seq<StoreEntry>)
    ensures forall e :: e in r <==> e in entries && Applicable(e)
    ensures forall i :: 0 <= i < |r| ==> r[i].shellStore && r[i].usable
  {
    if entries == [] then []
    else if Applicable(entries[0]) then [entries[0]] + OfferedEntries(entries[1..])
    else OfferedEntries(entries[1..])
  }

  /** Whether `e` is the entry the session currently browses. */
  predicate IsCurrent(e: StoreEntry, current: Option<TabModel>)
  {
    current.Some? && e.ref == current.value.entry
  }

  /** The outcome of a click on an entry. */
  datatype Decision = SkipUnusable | SkipAlreadyOpen | SkipNotShellStore | Open

  /** The guard of the click action, checked in the order the action checks it. */
  function Decide(e: StoreEntry, current: Option<TabModel>): (r: Decision)
    ensures r == Open <==> Applicable(e) && !IsCurrent(e, current)
    ensures r == SkipUnusable <==> !e.usable
    ensures r == SkipAlreadyOpen ==> IsCurrent(e, current)
  {
    if !e.usable then SkipUnusable
    else if IsCurrent(e, current) then SkipAlreadyOpen
    else if !e.shellStore then SkipNotShellStore
    else Open
  }

  /** The calls a click on `e` makes on the session model. */
  function ActionCalls(e: StoreEntry, current: Option<TabModel>, busy: BusyFlag): seq<Call>
  {
    match Decide(e, current)
    case SkipUnusable => []
    case SkipAlreadyOpen => [SelectedEntryQueried]
    case SkipNotShellStore => [SelectedEntryQueried]
    case Open => [SelectedEntryQueried, FileSystemOpenRequested(e.ref, None, Some(busy))]
  }

  /** How many calls of a list open a file system. */
  function OpenCount(calls: seq<Call>): nat
  {
    if calls == [] then 0 else (if calls[0].FileSystemOpenRequested? then 1 else 0) + OpenCount(calls[1..])
  }

  /**
    A click opens a file system at most once, and exactly once when the
    entry is offered and not already open; the open carries no initial
    path and the caller's busy flag.
  */
  lemma ActionOpensOnce(e: StoreEntry, current: Option<TabModel>, busy: BusyFlag)
    ensures OpenCount(ActionCalls(e, current, busy)) == if Applicable(e) && !IsCurrent(e, current) then 1 else 0
    ensures forall c :: c in ActionCalls(e, current, busy) && c.FileSystemOpenRequested? ==>
      c == FileSystemOpenRequested(e.ref, None, Some(busy))
  {
    var calls := ActionCalls(e, current, busy);
    if Decide(e, current) == Open {
      assert calls[1..][1..] == [];
      assert OpenCount(calls[1..]) == 1;
    } else if calls != [] {
      assert calls[1..] == [];
    }
  }

  /** An unusable entry makes no call at all. */
  lemma UnusableMakesNoCall(e: StoreEntry, current: Option<TabModel>, busy: BusyFlag)
    requires !e.usable
    ensures ActionCalls(e, current, busy) == []
  {
  }

  /** Every offered entry that is not already open is opened by a click. */
  lemma OfferedEntryOpens(entries: seq<StoreEntry>, i: nat, current: Option<TabModel>)
    requires i < |OfferedEntries(entries)|
    requires !IsCurrent(OfferedEntries(entries)[i], current)
    ensures Decide(OfferedEntries(entries)[i], current) == Open
  {
  }

  /** The file handed to a single-file consumer: the first chosen file, or none when nothing was chosen. */
  function SingleFileResult(files: seq<FileReference>): (r: Option<FileReference>)
    ensures r.None? <==> files == []
    ensures r.Some? ==> r.value == files[0] && r.value in files
  {
    if |files| > 0 then Some(files[0]) else None
  }

  /**
    What the finish callback delivers for the final list of files: the
    consumer it was made for receives the first file, or nothing when the
    list is empty.
  */
  function Deliver(h: FinishHandler, files: seq<FileReference>): (r: (FileConsumer, Option<FileReference>))
    ensures r.0 == h.consumer
    ensures r.1.None? <==> files == []
    ensures r.1.Some? ==> r.1.value == files[0]
  {
    (h.consumer, SingleFileResult(files))
  }

  /** A single-file result never depends on what follows the first file. */
  lemma SingleFileIgnoresRest(f: FileReference, rest: seq<FileReference>, other: seq<FileReference>)
    ensures SingleFileResult([f] + rest) == SingleFileResult([f] + other) == Some(f)
  {
  }

  /** The handler a single-file chooser installs hands the first file, or nothing, to its own consumer. */
  lemma SingleFileHandlerDelivers(consumer: FileConsumer, f: FileReference, rest: seq<FileReference>)
    ensures Deliver(DeliverFirst(consumer), [f] + rest) == (consumer, Some(f))
    ensures Deliver(DeliverFirst(consumer), []) == (consumer, None)
  {
  }

  /** The bottom-bar fields: one read-only field per selected entry with its path, in selection order. */
  function SelectionFields(selection: seq<BrowserEntry>): (r: seq<SelectionField>)
    ensures |r| == |selection|
    ensures forall i :: 0 <= i < |selection| ==> r[i] == SelectionField(selection[i].path, false)
  {
    if selection == [] then [] else [SelectionField(selection[0].path, false)] + SelectionFields(selection[1..])
  }

  /** The log shared by the window and the session model. */
  class Trace {
    ghost var calls: seq<Call>

    constructor ()
      ensures calls == []
    {
      calls := [];
    }
  }

  /** The dialog window. */
  class Stage {
    var showing: bool
    const trace: Trace

    constructor (trace: Trace)
      ensures showing && this.trace == trace
    {
      showing := true;
      this.trace := trace;
    }

    method Close()
      modifies this, trace
      ensures !showing && trace.calls == old(trace.calls) + [StageClosed]
    {
      showing := false;
      trace.calls := trace.calls + [StageClosed];
    }
  }

  /**
    The browsing session model, seen from the dialog only through its
    interface: each call appends itself to the trace; what the model does
    inside is not modelled.
  */
  class SessionModel {
    const mode: SelectionMode
    const trace: Trace
    var selectedEntry: Option<TabModel>
    /** The entries of the open file system that the user selected, in selection order. */
    var fileSelection: seq<BrowserEntry>
    var onFinish: Option<FinishHandler>

    constructor (mode: SelectionMode, trace: Trace)
      ensures this.mode == mode && this.trace == trace
      ensures selectedEntry.None? && fileSelection == [] && onFinish.None?
    {
      this.mode := mode;
      this.trace := trace;
      selectedEntry := None;
      fileSelection := [];
      onFinish := None;
    }

    method GetSelectedEntry() returns (r: Option<TabModel>)
      modifies trace
      ensures r == selectedEntry
      ensures trace.calls == old(trace.calls) + [SelectedEntryQueried]
    {
      r := selectedEntry;
      trace.calls := trace.calls + [SelectedEntryQueried];
    }

    /**
      The current file selection, which the bottom bar listens to. It
      stands for the interface call; the dialog's listener receives the
      new list from the model directly.
    */
    method GetFileSelection() returns (r: seq<BrowserEntry>)
      ensures r == fileSelection
    {
      r := fileSelection;
    }

    method OpenFileSystemAsync(entry: EntryRef, initialPath: Option<string>, busy: Option<BusyFlag>)
      modifies trace
      ensures trace.calls == old(trace.calls) + [FileSystemOpenRequested(entry, initialPath, busy)]
    {
      trace.calls := trace.calls + [FileSystemOpenRequested(entry, initialPath, busy)];
    }

    method FinishChooser()
      modifies trace
      ensures trace.calls == old(trace.calls) + [ChooserFinished]
    {
      trace.calls := trace.calls + [ChooserFinished];
    }

    method FinishWithoutChoice()
      modifies trace
      ensures trace.calls == old(trace.calls) + [ChooserFinishedWithoutChoice]
    {
      trace.calls := trace.calls + [ChooserFinishedWithoutChoice];
    }

    method SetOnFinish(h: FinishHandler)
      modifies this
      ensures onFinish == Some(h) && selectedEntry == old(selectedEntry) && fileSelection == old(fileSelection)
    {
      onFinish := Some(h);
    }
  }

  /** The window title key of a single-file chooser. */
  function WindowTitleKey(save: bool): string
  {
    if save then "saveFileTitle" else "openFileTitle"
  }

  class BrowserFileChooserSessionComp {
    const stage: Stage
    const model: SessionModel
    /** The children of the pane showing the open file system. */
    var stackChildren: seq<TabModel>
    /** The children of the bottom bar listing the selection. */
    var bottomChildren: seq<SelectionField>

    ghost predicate Valid()
      reads this, stage, model
    {
      stage.trace == model.trace
    }

    constructor (stage: Stage, model: SessionModel)
      requires stage.trace == model.trace
      ensures this.stage == stage && this.model == model && Valid()
      ensures stackChildren == [] && bottomChildren == []
    {
      this.stage := stage;
      this.model := model;
      stackChildren := [];
      bottomChildren := [];
    }

    /** Confirming closes the window first and then finishes the chooser. */
    method Finish()
      requires Valid()
      modifies stage, model.trace
      ensures !stage.showing
      ensures model.trace.calls == old(model.trace.calls) + [StageClosed, ChooserFinished]
    {
      stage.Close();
      model.FinishChooser();
    }

    /** Discarding only finishes the session without a choice; the window is left alone. */
    method Discard()
      modifies model.trace
      ensures stage.showing == old(stage.showing)
      ensures model.trace.calls == old(model.trace.calls) + [ChooserFinishedWithoutChoice]
    {
      model.FinishWithoutChoice();
    }

    /** A click on a connection entry, run as one step. */
    method Action(e: StoreEntry, busy: BusyFlag)
      modifies model.trace
      ensures model.trace.calls == old(model.trace.calls) + ActionCalls(e, model.selectedEntry, busy)
    {
      if !e.usable {
        return;
      }
      // do not open the same system again
      var current := model.GetSelectedEntry();
      if current.Some? && e.ref == current.value.entry {
        return;
      }
      if e.shellStore {
        model.OpenFileSystemAsync(e.ref, None, Some(busy));
      }
    }

    /** The selected tab of the model changed to `selected`: the pane shows that tab, or nothing. */
    method SelectedEntryChanged(selected: Option<TabModel>)
      requires selected == model.selectedEntry
      modifies this
      ensures stackChildren == if selected.Some? then [selected.value] else []
      ensures bottomChildren == old(bottomChildren)
    {
      if selected.Some? {
        stackChildren := [selected.value];
      } else {
        stackChildren := [];
      }
    }

    /** The model's file selection changed to `selection`: the bottom bar is replaced by one field per selected entry. */
    method FileSelectionChanged(selection: seq<BrowserEntry>)
      requires selection == model.fileSelection
      modifies this
      ensures bottomChildren == SelectionFields(selection)
      ensures stackChildren == old(stackChildren)
    {
      bottomChildren := SelectionFields(selection);
    }
  }

  /**
    Opens a single-file chooser: a session in single-file mode whose
    finish callback hands the first chosen file to `consumer`, and whose
    only call so far opens `store` with no initial path and no busy flag.
  */
  method OpenSingleFile(store: EntryRef, consumer: FileConsumer, save: bool)
    returns (comp: BrowserFileChooserSessionComp, titleKey: string)
    ensures fresh(comp) && fresh(comp.model) && fresh(comp.stage) && fresh(comp.model.trace)
    ensures comp.Valid() && comp.stage.showing
    ensures comp.model.mode == SingleFile
    ensures comp.model.onFinish == Some(DeliverFirst(consumer))
    ensures comp.model.trace.calls == [FileSystemOpenRequested(store, None, None)]
    ensures titleKey == WindowTitleKey(save)
  {
    var trace := new Trace();
    var model := new SessionModel(SingleFile, trace);
    titleKey := WindowTitleKey(save);
    var stage := new Stage(trace);
    comp := new BrowserFileChooserSessionComp(stage, model);
    model.SetOnFinish(DeliverFirst(consumer));
    model.OpenFileSystemAsync(store, None, None);
  }
}
