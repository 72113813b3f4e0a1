/**
 * The menus and canned replies (views/fileView.js, with the few replies of
 * views/userView.js the handlers use). Keyboards are exact: their button
 * labels and `callback_data` strings are those the bot sends. Reply texts are
 * reduced to one tag per canned message, carrying the values interpolated
 * into it.
 */
module FileView {
  import opened Wrappers
  import opened Strings
  import FileModel

  /** An inline button: a callback button, or a link button (`url`). */
  datatype Button = Callback(text: string, data: string) | Link(text: string, url: string)

  /** `inline_keyboard`: rows of buttons. */
  type Keyboard = seq<seq<Button>>

  /** The fields of a stored file that the handlers and the views read; `id` is `_id`. */
  datatype Doc = Doc(id: string, fileId: string, fileName: string, fileType: string,
                     yearSem: string, branch: string, fileCatgry: string)

  /** A record of models/File.js as the handlers see it: every field as its stored string. */
  function DocOf(r: FileModel.FileRecord): (d: Doc)
    ensures d.id == r.id && d.fileId == r.fileId && d.fileName == r.fileName
    ensures d.fileType == FileModel.KindCode(r.fileType)
    ensures FileModel.ParseYear(d.yearSem) == Some(r.yearSem)
    ensures FileModel.ParseBranch(d.branch) == Some(r.branch)
    ensures FileModel.ParseCategory(d.fileCatgry) == Some(r.fileCatgry)
  {
    Doc(r.id, r.fileId, r.fileName, FileModel.KindCode(r.fileType), FileModel.YearCode(r.yearSem),
        FileModel.BranchCode(r.branch), FileModel.CategoryCode(r.fileCatgry))
  }

  // ---------------------------------------------------------------------
  // The callback-data grammar the keyboards emit

  const YearPrefix := "listYearSem:"
  const BranchPrefix := "listBranch:"
  const CategoryPrefix := "listCategory:"
  const OptionsPrefix := "fileOptions:"
  const DownloadPrefix := "file:"
  const BackToMenuData := "backToMenu"

  /** The wildcard category the menu offers in addition to the four stored ones. */
  const Wildcard := "all"

  // ---------------------------------------------------------------------
  // Keyboards

  /** `yearSelectionKeyboard()`: one row per year, `listYearSem:<code>`, in schema order. */
  function YearKeyboard(): (kb: Keyboard)
    ensures |kb| == |FileModel.Years|
    ensures forall i :: 0 <= i < |kb| ==>
              |kb[i]| == 1 && kb[i][0].Callback? && kb[i][0].data == YearPrefix + FileModel.YearCode(FileModel.Years[i])
  {
    [[Callback("1\U{FE0F}\U{20E3}", "listYearSem:1")],
     [Callback("2\U{FE0F}\U{20E3}", "listYearSem:2")],
     [Callback("3\U{FE0F}\U{20E3}", "listYearSem:3")],
     [Callback("4\U{FE0F}\U{20E3}", "listYearSem:4")]]
  }

  /** The label of a branch button. */
  function BranchLabel(b: FileModel.Branch): string {
    match b
    case IT => "\U{1F4BB} IT"
    case EC => "\U{1F4E1} EC"
    case EE => "\U{26A1} EE"
    case ME => "\U{1F527} ME"
    case CE => "\U{1F3D7}\U{FE0F} CE"
    case Maths => "\U{1F4D0} Mathematics"
    case Chem => "\U{1F9EA} Chemistry"
    case Phy => "\U{1F52C} Physics"
    case Eng => "\U{1F4D6} English"
  }

  /**
   * `getBranchKeyboard(yearSem)`: all nine branches in schema order for the
   * string `'1'`, and the first five (the engineering branches) for anything else.
   */
  function BranchKeyboard(yearSem: string): (kb: Keyboard)
    ensures |kb| == if yearSem == "1" then 9 else 5
  {
    if yearSem == "1" then
      [[Callback("\U{1F4BB} IT", "listBranch:it")],
       [Callback("\U{1F4E1} EC", "listBranch:ec")],
       [Callback("\U{26A1} EE", "listBranch:ee")],
       [Callback("\U{1F527} ME", "listBranch:me")],
       [Callback("\U{1F3D7}\U{FE0F} CE", "listBranch:ce")],
       [Callback("\U{1F4D0} Mathematics", "listBranch:maths")],
       [Callback("\U{1F9EA} Chemistry", "listBranch:chem")],
       [Callback("\U{1F52C} Physics", "listBranch:phy")],
       [Callback("\U{1F4D6} English", "listBranch:eng")]]
    else
      [[Callback("\U{1F4BB} IT", "listBranch:it")],
       [Callback("\U{1F4E1} EC", "listBranch:ec")],
       [Callback("\U{26A1} EE", "listBranch:ee")],
       [Callback("\U{1F527} ME", "listBranch:me")],
       [Callback("\U{1F3D7}\U{FE0F} CE", "listBranch:ce")]]
  }

  /**
   * Row `i` of either branch keyboard offers the `i`-th branch of the schema,
   * labelled, with `listBranch:` and its stored code.
   */
  lemma BranchKeyboardFollowsSchema(yearSem: string)
    ensures forall i :: 0 <= i < |BranchKeyboard(yearSem)| ==>
              BranchKeyboard(yearSem)[i] == [Callback(BranchLabel(FileModel.Branches[i]), BranchPrefix + FileModel.BranchCode(FileModel.Branches[i]))]
  {
    var kb := BranchKeyboard(yearSem);
    forall i | 0 <= i < |kb|
      ensures kb[i] == [Callback(BranchLabel(FileModel.Branches[i]), BranchPrefix + FileModel.BranchCode(FileModel.Branches[i]))]
    {
      var b := FileModel.Branches[i];
      assert BranchPrefix + FileModel.BranchCode(b) == kb[i][0].data;
    }
  }

  /** The first-year keyboard extends every other year's keyboard. */
  lemma BranchKeyboardsNest(yearSem: string)
    ensures BranchKeyboard(yearSem) == BranchKeyboard("1")[..|BranchKeyboard(yearSem)|]
  {
  }

  /** The codes after `listCategory:`: the four stored categories in schema order, then the wildcard. */
  const CategoryTokens: seq<string> := ["books", "notes", "qp", "qb", "all"]

  /** `categorySelectionKeyboard()`. */
  function CategoryKeyboard(): (kb: Keyboard)
    ensures |kb| == |CategoryTokens| == |FileModel.Categories| + 1
    ensures forall i :: 0 <= i < |kb| ==> |kb[i]| == 1 && kb[i][0].Callback? && kb[i][0].data == CategoryPrefix + CategoryTokens[i]
    ensures forall i :: 0 <= i < |FileModel.Categories| ==> CategoryTokens[i] == FileModel.CategoryCode(FileModel.Categories[i])
    ensures CategoryTokens[|FileModel.Categories|] == Wildcard
  {
    [[Callback("\U{1F4DA} Books", "listCategory:books")],
     [Callback("\U{1F4DD} Notes", "listCategory:notes")],
     [Callback("\U{1F4C4} Question Papers", "listCategory:qp")],
     [Callback("\U{1F4D1} Shivani QB", "listCategory:qb")],
     [Callback("\U{1F4C2} All Files", "listCategory:all")]]
  }

  /** The label of a file button: the category is appended only for the wildcard listing. */
  function FileLabel(d: Doc, fileCatgry: string): (s: string)
    ensures s == "\U{1F4C1} " + d.fileName <==> fileCatgry != Wildcard
    ensures StartsWith(s, "\U{1F4C1} " + d.fileName)
    ensures fileCatgry == Wildcard ==> s == "\U{1F4C1} " + d.fileName + " (" + d.fileCatgry + ")"
  {
    var base := "\U{1F4C1} " + d.fileName;
    var s := if fileCatgry == Wildcard then base + " (" + d.fileCatgry + ")" else base;
    assert s[..|base|] == base;
    s
  }

  /**
   * `createFileListKeyboard(files, fileCatgry)`: one single-button row per
   * file, in the given order, each carrying `fileOptions:` and the file's `_id`.
   */
  function FileListKeyboard(docs: seq<Doc>, fileCatgry: string): (kb: Keyboard)
    ensures |kb| == |docs|
    ensures forall i :: 0 <= i < |kb| ==> kb[i] == [Callback(FileLabel(docs[i], fileCatgry), OptionsPrefix + docs[i].id)]
  {
    if docs == [] then []
    else [[Callback(FileLabel(docs[0], fileCatgry), "fileOptions:" + docs[0].id)]] + FileListKeyboard(docs[1..], fileCatgry)
  }

  /** `fileOptionsKeyboard(fileId)`: download `file:<id>`, then the literal `backToMenu`. */
  function FileOptionsKeyboard(id: string): (kb: Keyboard)
    ensures |kb| == 2 && |kb[0]| == 1 && |kb[1]| == 1
    ensures kb[0][0].Callback? && kb[0][0].data == DownloadPrefix + id
    ensures kb[1][0].Callback? && kb[1][0].data == BackToMenuData
  {
    [[Callback("\U{1F4E5} Download", "file:" + id)],
     [Callback("\U{1F519} Back to Menu", "backToMenu")]]
  }

  /** `submitKeyboard(ownerUsername)` (views/userView.js): one link to the owner's chat. */
  function SubmitKeyboard(ownerUsername: string): (kb: Keyboard)
    ensures |kb| == 1 && |kb[0]| == 1 && kb[0][0].Link? && |kb[0][0].url| == 13 + |ownerUsername|
    ensures kb[0][0].url[..13] == "https://t.me/" && kb[0][0].url[13..] == ownerUsername
  {
    [[Link("\U{1F4E4} Submit Files", "https://t.me/" + ownerUsername)]]
  }

  // ---------------------------------------------------------------------
  // Replies

  /** One line of the stats report: the shown name and the interaction count. */
  datatype StatsLine = StatsLine(name: string, interactions: int)

  /** The canned replies, each with the values interpolated into its text. */
  datatype Msg =
    | Welcome(firstName: Option<string>)
    | Greeting
    | UploadPrompt
    | UploadSaved
    | UploadFailed
    | SelectYear
    | SelectBranch
    | SelectCategory
    | SessionExpired
    | NoFilesFound(category: string, yearSem: string, branch: string)
    | FileList(categoryDisplay: string, yearSem: string, branch: string)
    | FileOptions(fileName: string)
    | FileNotFound
    | UnsupportedFileType
    | FileRetrievalError
    | FetchError
    | BackToMenuError
    | RequestError
    | StatsReport(totalUsers: int, totalInteractions: int, lines: seq<StatsLine>)
    | StatsError
    | SubmitInfo(firstName: Option<string>)
    | SubmitUnavailable
    | InvalidText
    | InvalidCommand
    | UploadNotAllowed
    | CannotChat

  /** `noFilesFoundMessage(category, yearSem, branch)`: the branch appears upper-cased. */
  function NoFilesFoundMessage(category: string, yearSem: string, branch: string): (m: Msg)
    ensures m.NoFilesFound? && m.category == category && m.yearSem == yearSem
    ensures m.branch == ToUpper(branch)
    ensures |m.branch| == |branch| && forall i :: 0 <= i < |m.branch| ==> !('a' <= m.branch[i] <= 'z')
    ensures (forall i :: 0 <= i < |branch| ==> !('A' <= branch[i] <= 'Z')) ==> ToLower(m.branch) == branch
  {
    var m := NoFilesFound(category, yearSem, ToUpper(branch));
    if forall i :: 0 <= i < |branch| ==> !('A' <= branch[i] <= 'Z') then LowerOfUpper(branch); m else m
  }

  /** `fileListMessage(categoryDisplay, yearSem, branch)`: the branch appears upper-cased. */
  function FileListMessage(categoryDisplay: string, yearSem: string, branch: string): (m: Msg)
    ensures m.FileList? && m.categoryDisplay == categoryDisplay && m.yearSem == yearSem
    ensures m.branch == ToUpper(branch)
    ensures |m.branch| == |branch| && forall i :: 0 <= i < |m.branch| ==> !('a' <= m.branch[i] <= 'z')
    ensures (forall i :: 0 <= i < |branch| ==> !('A' <= branch[i] <= 'Z')) ==> ToLower(m.branch) == branch
  {
    var m := FileList(categoryDisplay, yearSem, ToUpper(branch));
    if forall i :: 0 <= i < |branch| ==> !('A' <= branch[i] <= 'Z') then LowerOfUpper(branch); m else m
  }
}
