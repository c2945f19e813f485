/** What the assertions read from the application under test and from the
    filesystem. The application runs concurrently with the polling thread;
    here its observable state is a deterministic function of the clock
    reading (`World`), so each read by a probe sees one consistent
    snapshot, the one at the moment of that attempt. */
module Driver {

  datatype Commit = Commit(name: string)

  /** The parts of the application's model the assertions count or read. */
  datatype GitModel = GitModel(files: seq<string>, commits: seq<Commit>, stashEntries: seq<string>)

  /** A view (panel) as the assertions see it. `buffer` and `lines` are
      separate reads of the driver and are not related here. */
  datatype View = View(
    name: string,
    title: string,
    editable: bool,
    buffer: string,
    lines: seq<string>,
    selectedLine: string,
    selectedLineIdx: int)

  /** The focused context: its key, whether it is a list context, and its view. */
  datatype GuiContext = GuiContext(key: string, isListContext: bool, view: View)

  /** The driver's state: model, focused context, checked-out ref name,
      lookup of a view by name, and the two fixed main/secondary views. */
  datatype Gui = Gui(
    model: GitModel,
    currentContext: GuiContext,
    checkedOutRef: string,
    viewNamed: string -> View,
    mainView: View,
    secondaryView: View)

  /** What `os.Stat(path)` reports: success, a does-not-exist error, or
      some other error (permission denied, for one). */
  datatype StatResult = Found | NotExist | StatError(reason: string)

  /** Everything a probe can read at one moment. */
  datatype Snapshot = Snapshot(gui: Gui, stat: string -> StatResult)

  /** The state at each clock reading, in milliseconds. */
  type World = nat -> Snapshot

  /** The identifiers of the popup views. */
  const ConfirmationView: string := "confirmation"
  const MenuView: string := "menu"
  const CommitMessageView: string := "commitMessage"
}
