/**
 * The Mercurial log history window of Source/Hg/wb_hg_log_history_view.py:
 * the two table models (commits, and the files a commit changed), the
 * progress callback used while the log loads, the two commands that load
 * the log across the background thread, and the reaction to a change of
 * selection.
 *
 * Qt is reduced to what the code observes: a model index is a row and a
 * column, a value handed back to a view is a Value, T_ and formatDatetime
 * are recorded as the Translated and FormattedDate values they would be
 * applied to, and the widgets the window updates are fields holding what
 * they show. The hg commands are not run: their results are parameters.
 */
module HgLogHistoryView {
  import opened Wrappers
  import opened PyText

  // Qt constants the models compare against.
  const DisplayRole: int := 0
  const TextAlignmentRole: int := 7
  const UserRole: int := 256
  const Horizontal: int := 1
  const Vertical: int := 2
  const AlignLeft: int := 1

  /** One changed file of a commit: its action letter and its path. */
  datatype Change = Change(kind: string, path: string)

  /** A commit as the hg log command returns it. */
  datatype CommitNode = CommitNode(rev: int, author: string, date: int, message: string, changedFiles: seq<Change>)

  /** What a model hands back to a view. */
  datatype Value =
    | NoneValue
    | Text(text: string)
    | Translated(key: string)      // T_(key)
    | FormattedDate(utc: int)      // app.formatDatetime of the date taken as UTC
    | Alignment(flags: int)
    | CommitValue(node: CommitNode)
    | ChangeValue(change: Change)

  /** A position in a table view. */
  datatype ModelIndex = ModelIndex(row: int, column: int)

  // ---------------------------------------------------------------- table models

  /**
   * headerData, the same in both models: the translated title for a
   * horizontal header, an empty text for a vertical one, left alignment
   * for horizontal headers, nothing otherwise.
   */
  function HeaderValue(titles: seq<string>, section: int, orientation: int, role: int): (r: Result<Value, PyError>)
    ensures role == DisplayRole && orientation == Horizontal ==>
              r == (if PyIndex(titles, section).Some? then Ok(Translated(PyIndex(titles, section).value)) else Err(IndexError))
    ensures role == DisplayRole && orientation == Vertical ==> r == Ok(Text(""))
    ensures role == TextAlignmentRole && orientation == Horizontal ==> r == Ok(Alignment(AlignLeft))
    ensures r.Err? ==> role == DisplayRole && orientation == Horizontal && PyIndex(titles, section).None?
    ensures (!(role == DisplayRole && (orientation == Horizontal || orientation == Vertical))
             && !(role == TextAlignmentRole && orientation == Horizontal)) ==> r == Ok(NoneValue)
  {
    if role == DisplayRole then
      if orientation == Horizontal then
        match PyIndex(titles, section)
        case Some(t) => Ok(Translated(t))
        case None => Err(IndexError)
      else if orientation == Vertical then Ok(Text(""))
      else Ok(NoneValue)
    else if role == TextAlignmentRole && orientation == Horizontal then Ok(Alignment(AlignLeft))
    else Ok(NoneValue)
  }

  const LogColumnTitles: seq<string> := ["Author", "Date", "Message"]
  const ChangesColumnTitles: seq<string> := ["Action", "Filename", "Copied from"]

  /** The first line of a commit message, as `message.split('\n')[0]`. */
  function FirstLine(message: string): (r: string)
    ensures '\n' !in r
    ensures StartsWith(message, r)
    ensures '\n' !in message ==> r == message
    ensures |r| < |message| ==> message[|r|] == '\n'
  {
    BeforeFirst(message, '\n')
  }

  /** WbHgLogHistoryModel: the commits shown in the log table. */
  class LogHistoryModel {
    var allCommitNodes: seq<CommitNode>

    constructor ()
      ensures allCommitNodes == []
    {
      allCommitNodes := [];
    }

    /** loadCommitLogForRepository and loadCommitLogForFile: the list is replaced by what the hg command returned. */
    method Load(commits: seq<CommitNode>)
      modifies this
      ensures allCommitNodes == commits
      ensures RowCount() == |commits|
    {
      allCommitNodes := commits;
    }

    function RowCount(): (n: nat)
      reads this
      ensures n == |allCommitNodes|
    {
      |allCommitNodes|
    }

    function ColumnCount(): (n: nat)
      ensures n == |LogColumnTitles| == 3
    {
      |LogColumnTitles|
    }

    /** commitNode: the node of a row, with Python's list indexing. */
    function CommitNodeAt(row: int): (r: Result<CommitNode, PyError>)
      reads this
      ensures 0 <= row < |allCommitNodes| ==> r == Ok(allCommitNodes[row])
      ensures r.Err? <==> !(-|allCommitNodes| <= row < |allCommitNodes|)
      ensures r.Err? ==> r.error == IndexError
    {
      match PyIndex(allCommitNodes, row)
      case Some(node) => Ok(node)
      case None => Err(IndexError)
    }

    /** revisionForRow. */
    function RevisionForRow(row: int): (r: Result<int, PyError>)
      reads this
      ensures 0 <= row < |allCommitNodes| ==> r == Ok(allCommitNodes[row].rev)
      ensures r.Err? <==> CommitNodeAt(row).Err?
    {
      match CommitNodeAt(row)
      case Ok(node) => Ok(node.rev)
      case Err(e) => Err(e)
    }

    /** dateStringForRow. */
    function DateStringForRow(row: int): (r: Result<Value, PyError>)
      reads this
      ensures 0 <= row < |allCommitNodes| ==> r == Ok(FormattedDate(allCommitNodes[row].date))
      ensures r.Err? <==> CommitNodeAt(row).Err?
    {
      match CommitNodeAt(row)
      case Ok(node) => Ok(FormattedDate(node.date))
      case Err(e) => Err(e)
    }

    /** headerData: the three titles of this table, and IndexError for a section past them. */
    function HeaderData(section: int, orientation: int, role: int): (r: Result<Value, PyError>)
      ensures role == DisplayRole && orientation == Horizontal && 0 <= section < 3 ==> r == Ok(Translated(LogColumnTitles[section]))
      ensures r.Err? <==> role == DisplayRole && orientation == Horizontal && !(-3 <= section < 3)
      ensures r.Ok? && r.value != NoneValue ==>
                role == DisplayRole || (role == TextAlignmentRole && orientation == Horizontal)
    {
      HeaderValue(LogColumnTitles, section, orientation, role)
    }

    /** data: the node itself for UserRole; author, date or first message line for DisplayRole; nothing for other roles. */
    function Data(index: ModelIndex, role: int): (r: Result<Value, PyError>)
      reads this
      ensures role == UserRole ==> r == (match CommitNodeAt(index.row) case Ok(n) => Ok(CommitValue(n)) case Err(e) => Err(e))
      ensures role != UserRole && role != DisplayRole ==> r == Ok(NoneValue)
      ensures role == DisplayRole && CommitNodeAt(index.row).Err? ==> r == Err(IndexError)
      ensures role == DisplayRole && CommitNodeAt(index.row).Ok? ==>
                var node := CommitNodeAt(index.row).value;
                && (index.column == 0 ==> r == Ok(Text(node.author)))
                && (index.column == 1 ==> r == Ok(FormattedDate(node.date)))
                && (index.column == 2 ==> r == Ok(Text(FirstLine(node.message))))
                && (index.column !in {0, 1, 2} ==> r == Err(AssertionError))
    {
      if role == UserRole then
        match CommitNodeAt(index.row)
        case Ok(node) => Ok(CommitValue(node))
        case Err(e) => Err(e)
      else if role == DisplayRole then
        match CommitNodeAt(index.row)
        case Err(e) => Err(e)
        case Ok(node) =>
          if index.column == 0 then Ok(Text(node.author))
          else if index.column == 1 then Ok(FormattedDate(node.date))
          else if index.column == 2 then Ok(Text(FirstLine(node.message)))
          else Err(AssertionError)
      else Ok(NoneValue)
    }
  }

  /** The Copied from column: empty for added, deleted and modified files, None for the rest, since no old name is ever found. */
  function CopyFrom(kind: string): (v: Value)
    ensures v == Text("") <==> kind in ["A", "D", "M"]
    ensures v == NoneValue <==> kind !in ["A", "D", "M"]
  {
    if kind in ["A", "D", "M"] then Text("") else NoneValue
  }

  /** WbHgChangedFilesModel: the files changed by the selected commit. */
  class ChangedFilesModel {
    var allChanges: seq<Change>

    constructor ()
      ensures allChanges == []
    {
      allChanges := [];
    }

    /** loadChanges: the list is replaced wholesale. */
    method LoadChanges(changes: seq<Change>)
      modifies this
      ensures allChanges == changes
      ensures RowCount() == |changes|
    {
      allChanges := changes;
    }

    function RowCount(): (n: nat)
      reads this
      ensures n == |allChanges|
    {
      |allChanges|
    }

    function ColumnCount(): (n: nat)
      ensures n == |ChangesColumnTitles| == 3
    {
      |ChangesColumnTitles|
    }

    /** changesNode: the change of a row, with Python's list indexing. */
    function ChangesNode(row: int): (r: Result<Change, PyError>)
      reads this
      ensures 0 <= row < |allChanges| ==> r == Ok(allChanges[row])
      ensures r.Err? <==> !(-|allChanges| <= row < |allChanges|)
      ensures r.Err? ==> r.error == IndexError
    {
      match PyIndex(allChanges, row)
      case Some(c) => Ok(c)
      case None => Err(IndexError)
    }

    /** headerData: the three titles of this table, and IndexError for a section past them. */
    function HeaderData(section: int, orientation: int, role: int): (r: Result<Value, PyError>)
      ensures role == DisplayRole && orientation == Horizontal && 0 <= section < 3 ==> r == Ok(Translated(ChangesColumnTitles[section]))
      ensures r.Err? <==> role == DisplayRole && orientation == Horizontal && !(-3 <= section < 3)
      ensures r.Ok? && r.value != NoneValue ==>
                role == DisplayRole || (role == TextAlignmentRole && orientation == Horizontal)
    {
      HeaderValue(ChangesColumnTitles, section, orientation, role)
    }

    /** data: the change itself for UserRole; action, path or copy source for DisplayRole; nothing for other roles. */
    function Data(index: ModelIndex, role: int): (r: Result<Value, PyError>)
      reads this
      ensures role == UserRole ==> r == (match ChangesNode(index.row) case Ok(c) => Ok(ChangeValue(c)) case Err(e) => Err(e))
      ensures role != UserRole && role != DisplayRole ==> r == Ok(NoneValue)
      ensures role == DisplayRole && ChangesNode(index.row).Err? ==> r == Err(IndexError)
      ensures role == DisplayRole && ChangesNode(index.row).Ok? ==>
                var c := ChangesNode(index.row).value;
                && (index.column == 0 ==> r == Ok(Text(c.kind)))
                && (index.column == 1 ==> r == Ok(Text(c.path)))
                && (index.column == 2 ==> r == Ok(CopyFrom(c.kind)))
                && (index.column !in {0, 1, 2} ==> r == Err(AssertionError))
    {
      if role == UserRole then
        match ChangesNode(index.row)
        case Ok(c) => Ok(ChangeValue(c))
        case Err(e) => Err(e)
      else if role == DisplayRole then
        match ChangesNode(index.row)
        case Err(e) => Err(e)
        case Ok(c) =>
          if index.column == 0 then Ok(Text(c.kind))
          else if index.column == 1 then Ok(Text(c.path))
          else if index.column == 2 then Ok(CopyFrom(c.kind))
          else Err(AssertionError)
      else Ok(NoneValue)
    }
  }

  // ---------------------------------------------------------------- progress while loading

  /** The calls the progress callback makes on the progress indicator. */
  datatype ProgressCall = Start(total: int) | IncEventCount

  /** __logHistoryProgress: nothing without a positive total, start on the first commit, one event for every later one. */
  function ProgressCalls(count: int, total: int): (calls: seq<ProgressCall>)
    ensures total <= 0 ==> calls == []
    ensures total > 0 && count == 0 ==> calls == [Start(total)]
    ensures total > 0 && count != 0 ==> calls == [IncEventCount]
  {
    if total > 0 then
      if count == 0 then [Start(total)] else [IncEventCount]
    else []
  }

  /** The calls made by a run of callbacks with the given counts and one total. */
  function ProgressRun(counts: seq<int>, total: int): seq<ProgressCall>
    decreases |counts|
  {
    if counts == [] then [] else ProgressRun(counts[..|counts| - 1], total) + ProgressCalls(counts[|counts| - 1], total)
  }

  /** The done counts 0, 1, ..., n - 1 of successive (total, done) pairs given to the callback. */
  function Counts(n: nat): (c: seq<int>)
    ensures |c| == n && forall i :: 0 <= i < n ==> c[i] == i
  {
    seq(n, i => i)
  }

  /** Loading k + 1 commits of a known positive total starts the indicator once and then counts k events. */
  lemma {:induction false} ProgressRunCounts(total: int, k: nat)
    requires total > 0
    ensures ProgressRun(Counts(k + 1), total) == [Start(total)] + seq(k, _ => IncEventCount)
    decreases k
  {
    if k == 0 {
      assert Counts(1) == [0];
      assert ProgressRun([0], total) == ProgressRun([], total) + ProgressCalls(0, total);
    } else {
      assert Counts(k + 1)[..k] == Counts(k);
      ProgressRunCounts(total, k - 1);
      assert Counts(k + 1)[k] == k;
      assert seq(k - 1, _ => IncEventCount) + [IncEventCount] == seq(k, _ => IncEventCount);
    }
  }

  /** Without a positive total the callback never touches the indicator. */
  lemma {:induction false} ProgressRunSilent(counts: seq<int>, total: int)
    requires total <= 0
    ensures ProgressRun(counts, total) == []
    decreases |counts|
  {
    if counts != [] {
      ProgressRunSilent(counts[..|counts| - 1], total);
    }
  }

  /** The progress indicator of the window, as the calls made on it. */
  class ProgressIndicator {
    var calls: seq<ProgressCall>

    constructor ()
      ensures calls == []
    {
      calls := [];
    }

    /** The callback handed to the loader. */
    method LogHistoryProgress(count: int, total: int)
      modifies this
      ensures calls == old(calls) + ProgressCalls(count, total)
    {
      if total > 0 {
        if count == 0 {
          calls := calls + [Start(total)];
        } else {
          calls := calls + [IncEventCount];
        }
      }
    }
  }

  // ---------------------------------------------------------------- sorting the selection

  /** The rows of the selected cells that lie in column 0, in selection order. */
  function Column0Rows(selected: seq<ModelIndex>): (rows: seq<int>)
    ensures |rows| <= |selected|
    ensures forall x :: x in rows <==> exists i :: 0 <= i < |selected| && selected[i].column == 0 && selected[i].row == x
    decreases |selected|
  {
    if selected == [] then []
    else
      var rest := Column0Rows(selected[1..]);
      assert forall i :: 1 <= i < |selected| ==> selected[1..][i - 1] == selected[i];
      if selected[0].column == 0 then [selected[0].row] + rest else rest
  }

  /** The comprehension keeps the selection's order: the rows of a concatenation are the rows of each part in turn. */
  lemma {:induction false} Column0RowsAppend(a: seq<ModelIndex>, b: seq<ModelIndex>)
    ensures Column0Rows(a + b) == Column0Rows(a) + Column0Rows(b)
    decreases |a|
  {
    if a == [] {
      assert a + b == b;
    } else {
      assert (a + b)[1..] == a[1..] + b;
      Column0RowsAppend(a[1..], b);
    }
  }

  /** One selected cell contributes its row exactly when it lies in column 0. */
  lemma Column0RowsOne(x: ModelIndex)
    ensures Column0Rows([x]) == if x.column == 0 then [x.row] else []
  {
    assert [x][1..] == [];
  }

  /** The first row of the list is that of the first selected cell in column 0. */
  lemma {:induction false} Column0RowsFirst(selected: seq<ModelIndex>)
    requires Column0Rows(selected) != []
    ensures exists i :: 0 <= i < |selected| && selected[i].column == 0 && selected[i].row == Column0Rows(selected)[0]
                        && forall j :: 0 <= j < i ==> selected[j].column != 0
    decreases |selected|
  {
    if selected[0].column != 0 {
      Column0RowsFirst(selected[1..]);
      var i :| 0 <= i < |selected| - 1 && selected[1..][i].column == 0 && selected[1..][i].row == Column0Rows(selected[1..])[0]
               && forall j :: 0 <= j < i ==> selected[1..][j].column != 0;
      assert selected[i + 1] == selected[1..][i];
      assert forall j :: 0 <= j < i + 1 ==> selected[j].column != 0 by {
        forall j | 0 <= j < i + 1 ensures selected[j].column != 0 {
          if j > 0 { assert selected[j] == selected[1..][j - 1]; }
        }
      }
    }
  }

  predicate Sorted(s: seq<int>) {
    forall i, j :: 0 <= i < j < |s| ==> s[i] <= s[j]
  }

  /** Places x before the first element not smaller than it. */
  function Insert(x: int, s: seq<int>): (r: seq<int>)
    ensures |r| == |s| + 1
    decreases |s|
  {
    if s == [] || x <= s[0] then [x] + s else [s[0]] + Insert(x, s[1..])
  }

  /** Insertion adds exactly the one element. */
  lemma {:induction false} InsertElements(x: int, s: seq<int>)
    ensures multiset(Insert(x, s)) == multiset(s) + multiset{x}
    decreases |s|
  {
    if s != [] && x > s[0] {
      InsertElements(x, s[1..]);
      assert s == [s[0]] + s[1..];
    }
  }

  /** Insertion into a sorted sequence keeps it sorted. */
  lemma {:induction false} InsertSorted(x: int, s: seq<int>)
    requires Sorted(s)
    ensures Sorted(Insert(x, s))
    decreases |s|
  {
    if s != [] && x > s[0] {
      var tail := Insert(x, s[1..]);
      assert Insert(x, s) == [s[0]] + tail;
      InsertSorted(x, s[1..]);
      InsertElements(x, s[1..]);
      forall k | 0 <= k < |tail|
        ensures s[0] <= tail[k]
      {
        assert tail[k] in multiset(s[1..]) + multiset{x} by { assert tail[k] in multiset(tail); }
        if tail[k] != x {
          assert tail[k] in s[1..];
        }
      }
      ConsSorted(s[0], tail);
    }
  }

  /** A sorted sequence stays sorted with an element in front that bounds all of its elements. */
  lemma ConsSorted(h: int, t: seq<int>)
    requires Sorted(t)
    requires forall k :: 0 <= k < |t| ==> h <= t[k]
    ensures Sorted([h] + t)
  {
    var r := [h] + t;
    assert forall i :: 1 <= i < |r| ==> r[i] == t[i - 1];
  }

  /** list.sort() on integers, as insertion of each element into the sorted rest. */
  function Sort(s: seq<int>): (r: seq<int>)
    ensures |r| == |s|
    decreases |s|
  {
    if s == [] then [] else Insert(s[0], Sort(s[1..]))
  }

  /** Sorting orders the elements and keeps exactly the same ones. */
  lemma {:induction false} SortSpec(s: seq<int>)
    ensures Sorted(Sort(s)) && multiset(Sort(s)) == multiset(s)
    decreases |s|
  {
    if s != [] {
      var rest := Sort(s[1..]);
      SortSpec(s[1..]);
      InsertSorted(s[0], rest);
      InsertElements(s[0], rest);
      assert s == [s[0]] + s[1..];
    }
  }

  /** After sorting, the first element is the smallest selected row. */
  lemma SortFirstIsMinimum(s: seq<int>)
    requires s != []
    ensures |Sort(s)| == |s|
    ensures Sort(s)[0] in s && forall x :: x in s ==> Sort(s)[0] <= x
  {
    var r := Sort(s);
    SortSpec(s);
    assert |r| == |multiset(r)| == |multiset(s)| == |s|;
    assert r[0] in multiset(r);
    forall x | x in s
      ensures r[0] <= x
    {
      assert x in multiset(s);
      assert x in multiset(r);
      var k :| 0 <= k < |r| && r[k] == x;
    }
  }

  // ---------------------------------------------------------------- the window

  /** The thread a step runs on. */
  datatype Context = Foreground | Background

  /** The observable steps of the loading commands and selection handlers. */
  datatype Step =
    | SetFields(filename: Option<string>, hgProject: Option<string>)
    | SwitchToBackground
    | SwitchToForeground
    | LoadLog(commits: seq<CommitNode>)
    | ResizeDateColumn
    | ProgressEnd
    | UpdateEnableStates
    | ShowWindow

  /**
   * Steps that touch Qt widgets; only the foreground thread may run them.
   * The model reset that loading does (beginResetModel and endResetModel
   * around the new list) is part of LoadLog, which the source runs on the
   * background thread; it is not counted as a widget step here.
   */
  predicate IsGuiStep(s: Step) {
    s.ResizeDateColumn? || s.ProgressEnd? || s.UpdateEnableStates? || s.ShowWindow?
  }

  /** A step and the thread it ran on. */
  datatype TaggedStep = TaggedStep(step: Step, context: Context)

  /** Every step touching a widget ran on the foreground thread. */
  predicate GuiOnForeground(trace: seq<TaggedStep>) {
    forall i :: 0 <= i < |trace| ==> IsGuiStep(trace[i].step) ==> trace[i].context == Foreground
  }

  /** The steps a loading command takes after it has set its fields: load in the background, then finish in the foreground. */
  function LoadSteps(commits: seq<CommitNode>): seq<TaggedStep> {
    [TaggedStep(SwitchToBackground, Foreground),
     TaggedStep(LoadLog(commits), Background),
     TaggedStep(SwitchToForeground, Background),
     TaggedStep(ResizeDateColumn, Foreground),
     TaggedStep(ProgressEnd, Foreground),
     TaggedStep(UpdateEnableStates, Foreground),
     TaggedStep(ShowWindow, Foreground)]
  }

  /** A whole loading command: it assigns the file name and the project on the foreground, then loads. */
  function CommandSteps(filename: Option<string>, project: Option<string>, commits: seq<CommitNode>): seq<TaggedStep> {
    [TaggedStep(SetFields(filename, project), Foreground)] + LoadSteps(commits)
  }

  /**
   * The fields are assigned once, on the foreground, before the switch to
   * the background and before every widget step, so updateEnableStates and
   * show see the new file name and project.
   */
  lemma CommandStepsOrder(filename: Option<string>, project: Option<string>, commits: seq<CommitNode>)
    ensures GuiOnForeground(CommandSteps(filename, project, commits))
    ensures var s := CommandSteps(filename, project, commits);
            && s[0] == TaggedStep(SetFields(filename, project), Foreground)
            && (forall i :: 0 <= i < |s| && s[i].step.SetFields? ==> i == 0)
            && (forall j :: 0 <= j < |s| && (s[j].step.SwitchToBackground? || s[j].step.LoadLog? || IsGuiStep(s[j].step)) ==> 0 < j)
  {
  }

  /** The load runs on the background thread, and every widget step after it on the foreground. */
  lemma LoadStepsOrder(commits: seq<CommitNode>)
    ensures GuiOnForeground(LoadSteps(commits))
    ensures var s := LoadSteps(commits);
            forall i :: 0 <= i < |s| && s[i].step.LoadLog? ==>
              s[i].context == Background
              && (forall j :: i < j < |s| && IsGuiStep(s[j].step) ==> s[j].context == Foreground)
              && (forall j :: 0 <= j < i ==> !IsGuiStep(s[j].step))
  {
  }

  /** Appending foreground-safe steps keeps a foreground-safe trace. */
  lemma GuiOnForegroundAppend(a: seq<TaggedStep>, b: seq<TaggedStep>)
    requires GuiOnForeground(a) && GuiOnForeground(b)
    ensures GuiOnForeground(a + b)
  {
    assert forall i :: |a| <= i < |a + b| ==> (a + b)[i] == b[i - |a|];
  }

  datatype ViewFields = ViewFields(
    filename: Option<string>, hgProject: Option<string>,
    commitSelections: seq<int>, fileSelection: seq<int>,
    changesetId: string, commitMessage: string)

  /** WbHgLogHistoryView: the fields the commands and selection handlers assign. */
  class LogHistoryView {
    var filename: Option<string>
    var hgProject: Option<string>
    var currentCommitSelections: seq<int>
    var currentFileSelection: seq<int>
    var changesetId: string
    var commitMessage: string
    var context: Context
    var trace: seq<TaggedStep>
    const logModel: LogHistoryModel
    const changesModel: ChangedFilesModel

    /** Everything the window shows apart from the models, the thread and the trace. */
    function Fields(): ViewFields
      reads this
    {
      ViewFields(filename, hgProject, currentCommitSelections, currentFileSelection, changesetId, commitMessage)
    }

    predicate Valid()
      reads this
    {
      GuiOnForeground(trace)
    }

    constructor ()
      ensures Valid() && fresh(logModel) && fresh(changesModel)
      ensures filename == None && hgProject == None
      ensures currentCommitSelections == [] && currentFileSelection == []
      ensures changesetId == "" && commitMessage == ""
      ensures context == Foreground && trace == []
      ensures logModel.allCommitNodes == [] && changesModel.allChanges == []
    {
      filename, hgProject := None, None;
      currentCommitSelections, currentFileSelection := [], [];
      changesetId, commitMessage := "", "";
      context, trace := Foreground, [];
      logModel := new LogHistoryModel();
      changesModel := new ChangedFilesModel();
    }

    /** Records a step that changes none of the fields; assignments are recorded by AssignFields, which makes them. */
    method Record(s: Step)
      requires !s.SetFields?
      modifies this
      ensures trace == old(trace) + [TaggedStep(s, context)]
      ensures context == old(context) && Fields() == old(Fields())
    {
      trace := trace + [TaggedStep(s, context)];
    }

    /** Assigns the file name and the project, and records the assignment on the current thread. */
    method AssignFields(f: Option<string>, p: Option<string>)
      requires Valid()
      modifies this
      ensures Valid() && context == old(context)
      ensures Fields() == old(Fields()).(filename := f, hgProject := p)
      ensures trace == old(trace) + [TaggedStep(SetFields(f, p), old(context))]
    {
      filename, hgProject := f, p;
      trace := trace + [TaggedStep(SetFields(f, p), context)];
      GuiOnForegroundAppend(old(trace), [TaggedStep(SetFields(f, p), context)]);
    }

    method SwitchTo(c: Context)
      modifies this
      ensures context == c
      ensures trace == old(trace) + [TaggedStep(if c == Background then SwitchToBackground else SwitchToForeground, old(context))]
      ensures Fields() == old(Fields())
    {
      Record(if c == Background then SwitchToBackground else SwitchToForeground);
      context := c;
    }

    /**
     * The three phases shared by the two commands: switch to the
     * background, load the log there, switch back and finish with the
     * widget steps.
     */
    method LoadAcrossThreads(commits: seq<CommitNode>)
      requires Valid() && context == Foreground
      modifies this, logModel
      ensures Valid() && context == Foreground
      ensures trace == old(trace) + LoadSteps(commits)
      ensures logModel.allCommitNodes == commits
      ensures Fields() == old(Fields())
    {
      SwitchTo(Background);
      logModel.Load(commits);
      Record(LoadLog(commits));
      SwitchTo(Foreground);
      Record(ResizeDateColumn);
      Record(ProgressEnd);
      Record(UpdateEnableStates);
      Record(ShowWindow);
      LoadStepsOrder(commits);
      GuiOnForegroundAppend(old(trace), LoadSteps(commits));
    }

    /** showCommitLogForRepository_Bg: forget the file name, remember the project, then load the repository's log. */
    method ShowCommitLogForRepositoryBg(project: string, commits: seq<CommitNode>)
      requires Valid() && context == Foreground
      modifies this, logModel
      ensures Valid() && context == Foreground
      ensures filename == None && hgProject == Some(project)
      ensures Fields() == old(Fields()).(filename := None, hgProject := Some(project))
      ensures trace == old(trace) + CommandSteps(None, Some(project), commits)
      ensures logModel.allCommitNodes == commits
    {
      AssignFields(None, Some(project));
      LoadAcrossThreads(commits);
      assert trace == old(trace) + CommandSteps(None, Some(project), commits);
    }

    /** showCommitLogForFile_Bg: remember the file name and the project, then load the file's log. */
    method ShowCommitLogForFileBg(project: string, file: string, commits: seq<CommitNode>)
      requires Valid() && context == Foreground
      modifies this, logModel
      ensures Valid() && context == Foreground
      ensures filename == Some(file) && hgProject == Some(project)
      ensures Fields() == old(Fields()).(filename := Some(file), hgProject := Some(project))
      ensures trace == old(trace) + CommandSteps(Some(file), Some(project), commits)
      ensures logModel.allCommitNodes == commits
    {
      AssignFields(Some(file), Some(project));
      LoadAcrossThreads(commits);
      assert trace == old(trace) + CommandSteps(Some(file), Some(project), commits);
    }

    /**
     * selectionChangedCommit: with no row selected in column 0 only the
     * enable states are updated; otherwise the smallest selected row's
     * commit fills the changeset id, the message and the changed files.
     */
    method SelectionChangedCommit(selected: seq<ModelIndex>) returns (raised: Option<PyError>)
      requires Valid() && context == Foreground
      modifies this, changesModel
      ensures Valid() && context == Foreground
      ensures var rows := Column0Rows(selected);
              currentCommitSelections == (if rows == [] then [] else Sort(rows))
      ensures filename == old(filename) && hgProject == old(hgProject) && currentFileSelection == old(currentFileSelection)
      ensures Column0Rows(selected) == [] ==>
                raised == None && trace == old(trace) + [TaggedStep(UpdateEnableStates, Foreground)]
                && changesetId == old(changesetId) && commitMessage == old(commitMessage)
                && changesModel.allChanges == old(changesModel.allChanges)
      ensures Column0Rows(selected) != [] ==>
                var first := Sort(Column0Rows(selected))[0];
                match logModel.CommitNodeAt(first)
                case Err(e) =>
                  raised == Some(e) && trace == old(trace)
                  && changesetId == old(changesetId) && commitMessage == old(commitMessage)
                  && changesModel.allChanges == old(changesModel.allChanges)
                case Ok(node) =>
                  raised == None && trace == old(trace) + [TaggedStep(UpdateEnableStates, Foreground)]
                  && changesetId == DecimalText(node.rev) && commitMessage == node.message
                  && changesModel.allChanges == node.changedFiles
    {
      var rows := Column0Rows(selected);
      currentCommitSelections := rows;
      if |currentCommitSelections| == 0 {
        Record(UpdateEnableStates);
        GuiOnForegroundAppend(old(trace), [TaggedStep(UpdateEnableStates, Foreground)]);
        return None;
      }
      currentCommitSelections := Sort(currentCommitSelections);
      var node := logModel.CommitNodeAt(currentCommitSelections[0]);
      if node.Err? {
        return Some(node.error);
      }
      changesetId := DecimalText(node.value.rev);
      commitMessage := node.value.message;
      changesModel.LoadChanges(node.value.changedFiles);
      Record(UpdateEnableStates);
      GuiOnForegroundAppend(old(trace), [TaggedStep(UpdateEnableStates, Foreground)]);
      return None;
    }

    /** selectionChangedFile: the column-0 rows in selection order; the first row's change is looked up and not used. */
    method SelectionChangedFile(selected: seq<ModelIndex>) returns (raised: Option<PyError>)
      requires Valid() && context == Foreground
      modifies this
      ensures Valid() && context == Foreground
      ensures currentFileSelection == Column0Rows(selected)
      ensures trace == old(trace) + [TaggedStep(UpdateEnableStates, Foreground)]
      ensures raised.Some? <==> Column0Rows(selected) != [] && changesModel.ChangesNode(Column0Rows(selected)[0]).Err?
      ensures raised.Some? ==> raised == Some(IndexError)
      ensures changesetId == old(changesetId) && commitMessage == old(commitMessage)
      ensures filename == old(filename) && hgProject == old(hgProject) && currentCommitSelections == old(currentCommitSelections)
    {
      currentFileSelection := Column0Rows(selected);
      Record(UpdateEnableStates);
      GuiOnForegroundAppend(old(trace), [TaggedStep(UpdateEnableStates, Foreground)]);
      if |currentFileSelection| == 0 {
        return None;
      }
      var node := changesModel.ChangesNode(currentFileSelection[0]);
      if node.Err? {
        return Some(node.error);
      }
      return None;
    }
  }
}
