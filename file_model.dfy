/**
 * The stored file records (models/File.js): the closed classification enums,
 * the record with its schema defaults, the collection with its uniqueness
 * constraints, and the queries the bot runs against it.
 */
module FileModel {
  import opened Wrappers
  import opened Strings
  import Sorting

  // ---------------------------------------------------------------------
  // The schema's closed enumerations, each with the string the store holds

  datatype YearSem = Y1 | Y2 | Y3 | Y4
  datatype Branch = IT | EC | EE | ME | CE | Maths | Chem | Phy | Eng
  datatype Category = Books | Notes | QP | QB
  datatype FileKind = Document | Photo | Video | Audio | Unknown

  function YearCode(y: YearSem): string {
    match y
    case Y1 => "1" case Y2 => "2" case Y3 => "3" case Y4 => "4"
  }

  function BranchCode(b: Branch): string {
    match b
    case IT => "it" case EC => "ec" case EE => "ee" case ME => "me" case CE => "ce"
    case Maths => "maths" case Chem => "chem" case Phy => "phy" case Eng => "eng"
  }

  function CategoryCode(c: Category): string {
    match c
    case Books => "books" case Notes => "notes" case QP => "qp" case QB => "qb"
  }

  function KindCode(k: FileKind): string {
    match k
    case Document => "document" case Photo => "photo" case Video => "video"
    case Audio => "audio" case Unknown => "unknown"
  }

  /** The schema's enum lists, in declaration order. */
  const Years: seq<YearSem> := [Y1, Y2, Y3, Y4]
  const Branches: seq<Branch> := [IT, EC, EE, ME, CE, Maths, Chem, Phy, Eng]
  const Categories: seq<Category> := [Books, Notes, QP, QB]

  /** The enum validator on `yearSem`: accepts exactly the four codes. */
  function ParseYear(s: string): (r: Option<YearSem>)
    ensures forall y :: r == Some(y) <==> YearCode(y) == s
  {
    if s == "1" then Some(Y1) else if s == "2" then Some(Y2)
    else if s == "3" then Some(Y3) else if s == "4" then Some(Y4) else None
  }

  /** The enum validator on `branch`: accepts exactly the nine codes. */
  function ParseBranch(s: string): (r: Option<Branch>)
    ensures forall b :: r == Some(b) <==> BranchCode(b) == s
  {
    if s == "it" then Some(IT) else if s == "ec" then Some(EC)
    else if s == "ee" then Some(EE) else if s == "me" then Some(ME)
    else if s == "ce" then Some(CE) else if s == "maths" then Some(Maths)
    else if s == "chem" then Some(Chem) else if s == "phy" then Some(Phy)
    else if s == "eng" then Some(Eng) else None
  }

  /** The enum validator on `fileCatgry`: accepts exactly the four codes. */
  function ParseCategory(s: string): (r: Option<Category>)
    ensures forall c :: r == Some(c) <==> CategoryCode(c) == s
  {
    if s == "books" then Some(Books) else if s == "notes" then Some(Notes)
    else if s == "qp" then Some(QP) else if s == "qb" then Some(QB) else None
  }

  /** The wildcard the menus offer is not a storable category. */
  lemma WildcardIsNotACategory()
    ensures ParseCategory("all") == None
    ensures forall c :: CategoryCode(c) != "all"
  {
  }

  // ---------------------------------------------------------------------
  // Records

  datatype Uploader = Uploader(userId: int, username: Option<string>)

  /** One document of the `files` collection; `id` is the store's `_id`. */
  datatype FileRecord = FileRecord(
    id: string,
    fileId: string,
    fileName: string,
    fileType: FileKind,
    uploadedBy: Uploader,
    yearSem: YearSem,
    branch: Branch,
    fileCatgry: Category,
    uploadedAt: int,
    downloads: int,
    isActive: bool)

  /** A new record: the schema defaults fill `uploadedAt`, `downloads` and `isActive`. */
  function NewFile(id: string, fileId: string, fileName: string, fileType: FileKind, uploadedBy: Uploader,
                   yearSem: YearSem, branch: Branch, fileCatgry: Category, now: int): (r: FileRecord)
    ensures r.downloads == 0 && r.isActive && r.uploadedAt == now
    ensures r.(uploadedAt := 0, downloads := 0, isActive := true)
         == FileRecord(id, fileId, fileName, fileType, uploadedBy, yearSem, branch, fileCatgry, 0, 0, true)
  {
    FileRecord(id, fileId, fileName, fileType, uploadedBy, yearSem, branch, fileCatgry, now, 0, true)
  }

  /** The `required` validators: a required string must not be empty. */
  predicate Wellformed(r: FileRecord) {
    r.fileId != "" && r.fileName != ""
  }

  /** The `fileId` unique index, and the `_id` primary key. */
  ghost predicate UniqueKeys(files: seq<FileRecord>) {
    forall i, j :: 0 <= i < j < |files| ==> files[i].fileId != files[j].fileId && files[i].id != files[j].id
  }

  /** The collection; `records` is in natural (insertion) order. */
  class FileStore {
    var records: seq<FileRecord>

    ghost predicate Valid()
      reads this
    {
      UniqueKeys(records) && forall i :: 0 <= i < |records| ==> Wellformed(records[i])
    }

    constructor ()
      ensures Valid() && records == []
    {
      records := [];
    }

    /**
     * `save()` of a new document: rejected by a validator or by a duplicate key,
     * otherwise appended.
     */
    method Save(r: FileRecord) returns (ok: bool)
      requires Valid()
      modifies this
      ensures Valid()
      ensures ok <==> Wellformed(r) && forall i :: 0 <= i < |old(records)| ==>
                        old(records)[i].fileId != r.fileId && old(records)[i].id != r.id
      ensures records == if ok then old(records) + [r] else old(records)
    {
      ok := Wellformed(r);
      var i := 0;
      while ok && i < |records|
        invariant 0 <= i <= |records|
        invariant ok ==> Wellformed(r)
        invariant ok ==> forall k :: 0 <= k < i ==> records[k].fileId != r.fileId && records[k].id != r.id
        invariant !ok ==> !Wellformed(r) || exists k :: 0 <= k < i && (records[k].fileId == r.fileId || records[k].id == r.id)
      {
        if records[i].fileId == r.fileId || records[i].id == r.id {
          ok := false;
        }
        i := i + 1;
      }
      if ok {
        records := records + [r];
      }
    }

    /** `incrementDownloads()` on the document at position `i`. */
    method IncrementDownloads(i: int)
      requires Valid() && 0 <= i < |records|
      modifies this
      ensures Valid()
      ensures |records| == |old(records)|
      ensures records[i].downloads == old(records)[i].downloads + 1
      ensures records[i].(downloads := old(records)[i].downloads) == old(records)[i]
      ensures forall k :: 0 <= k < |records| && k != i ==> records[k] == old(records)[k]
    {
      var r := records[i];
      records := records[i := r.(downloads := r.downloads + 1)];
    }
  }

  // ---------------------------------------------------------------------
  // Queries

  /** An exact-match filter on year and branch, and on the category unless it is absent. */
  datatype FileQuery = FileQuery(yearSem: string, branch: string, category: Option<string>)

  /** The filter both the handlers and `findByCategory` build: no category filter for `'all'`. */
  function QueryFor(yearSem: string, branch: string, fileCatgry: string): (q: FileQuery)
    ensures q.yearSem == yearSem && q.branch == branch
    ensures q.category.None? <==> fileCatgry == "all"
    ensures q.category.Some? ==> q.category.value == fileCatgry
  {
    FileQuery(yearSem, branch, if fileCatgry == "all" then None else Some(fileCatgry))
  }

  predicate Matches(r: FileRecord, q: FileQuery) {
    && YearCode(r.yearSem) == q.yearSem
    && BranchCode(r.branch) == q.branch
    && (q.category.None? || CategoryCode(r.fileCatgry) == q.category.value)
  }

  /**
   * `File.find(query)`: the matching records, each as often as it is stored
   * (see `FindCounts`), in natural order (see `FindAppend`).
   */
  function Find(files: seq<FileRecord>, q: FileQuery): (r: seq<FileRecord>)
    ensures forall x :: x in r <==> x in files && Matches(x, q)
    ensures forall i :: 0 <= i < |r| ==> Matches(r[i], q)
    ensures |r| <= |files|
  {
    if files == [] then []
    else (if Matches(files[0], q) then [files[0]] else []) + Find(files[1..], q)
  }

  /** Each matching record is returned as often as it is stored, and no other record at all. */
  lemma {:induction false} FindCounts(files: seq<FileRecord>, q: FileQuery)
    ensures forall x :: multiset(Find(files, q))[x] == if Matches(x, q) then multiset(files)[x] else 0
  {
    if files != [] {
      assert files == [files[0]] + files[1..];
      FindCounts(files[1..], q);
    }
  }

  /** The store scans in natural order: the matches of a concatenation are the matches of each part, in turn. */
  lemma {:induction false} FindAppend(a: seq<FileRecord>, b: seq<FileRecord>, q: FileQuery)
    ensures Find(a + b, q) == Find(a, q) + Find(b, q)
  {
    if a == [] {
      assert a + b == b;
    } else {
      assert (a + b)[0] == a[0];
      assert (a + b)[1..] == a[1..] + b;
      FindAppend(a[1..], b, q);
    }
  }

  /** `File.findById(id)`: the record whose `_id` is `id`, if any. */
  function FindById(files: seq<FileRecord>, id: string): (r: Option<FileRecord>)
    ensures r.Some? ==> r.value in files && r.value.id == id
    ensures r.None? <==> forall x :: x in files ==> x.id != id
  {
    if files == [] then None
    else if files[0].id == id then Some(files[0])
    else FindById(files[1..], id)
  }

  /**
   * With the wildcard, the query returns every record of the year and branch:
   * exactly those that some single-category query returns.
   */
  lemma WildcardIsUnionOfCategories(files: seq<FileRecord>, yearSem: string, branch: string)
    ensures forall x :: x in Find(files, QueryFor(yearSem, branch, "all")) <==>
                        exists c :: x in Find(files, QueryFor(yearSem, branch, CategoryCode(c)))
  {
    forall x | x in Find(files, QueryFor(yearSem, branch, "all"))
      ensures x in Find(files, QueryFor(yearSem, branch, CategoryCode(x.fileCatgry)))
    {
      WildcardIsNotACategory();
    }
    forall x, c | x in Find(files, QueryFor(yearSem, branch, CategoryCode(c)))
      ensures x in Find(files, QueryFor(yearSem, branch, "all"))
    {
      WildcardIsNotACategory();
    }
  }

  /** A non-wildcard query returns only records of that category. */
  lemma CategoryQueryIsExact(files: seq<FileRecord>, yearSem: string, branch: string, c: Category)
    ensures forall x :: x in Find(files, QueryFor(yearSem, branch, CategoryCode(c))) ==> x.fileCatgry == c
  {
    WildcardIsNotACategory();
    forall x | x in Find(files, QueryFor(yearSem, branch, CategoryCode(c))) ensures x.fileCatgry == c {
      assert ParseCategory(CategoryCode(x.fileCatgry)) == Some(x.fileCatgry);
    }
  }

  function ActiveMatching(files: seq<FileRecord>, q: FileQuery): (r: seq<FileRecord>)
    ensures forall x :: x in r <==> x in files && x.isActive && Matches(x, q)
    ensures forall x :: multiset(r)[x] == if x.isActive && Matches(x, q) then multiset(files)[x] else 0
    ensures multiset(r) <= multiset(files)
  {
    if files == [] then []
    else
      assert files == [files[0]] + files[1..];
      (if files[0].isActive && Matches(files[0], q) then [files[0]] else []) + ActiveMatching(files[1..], q)
  }

  function UploadedAt(r: FileRecord): int { r.uploadedAt }

  /**
   * `File.findByCategory(yearSem, branch, fileCatgry)`: the active records of
   * the year and branch (and of the category unless it is `'all'`), newest first.
   */
  function FindByCategory(files: seq<FileRecord>, yearSem: string, branch: string, fileCatgry: string)
    : (r: seq<FileRecord>)
    ensures forall x :: x in r <==> (x in files && x.isActive && YearCode(x.yearSem) == yearSem
                                     && BranchCode(x.branch) == branch
                                     && (fileCatgry == "all" || CategoryCode(x.fileCatgry) == fileCatgry))
    ensures Sorting.SortedDesc(r, UploadedAt)
    ensures multiset(r) == multiset(ActiveMatching(files, QueryFor(yearSem, branch, fileCatgry)))
  {
    var matching := ActiveMatching(files, QueryFor(yearSem, branch, fileCatgry));
    var r := Sorting.SortDesc(matching, UploadedAt);
    assert forall x :: x in r <==> x in multiset(r);
    assert forall x :: x in matching <==> x in multiset(matching);
    r
  }

  // ---------------------------------------------------------------------
  // `getFileStats`: active files grouped by (yearSem, branch, fileCatgry)

  datatype GroupKey = GroupKey(yearSem: YearSem, branch: Branch, fileCatgry: Category)
  datatype GroupStat = GroupStat(key: GroupKey, count: nat, totalDownloads: int)

  function KeyOf(r: FileRecord): GroupKey {
    GroupKey(r.yearSem, r.branch, r.fileCatgry)
  }

  /** The order `$sort` puts the keys in: ascending by code string, field by field. */
  predicate KeyLess(a: GroupKey, b: GroupKey) {
    || LexLess(YearCode(a.yearSem), YearCode(b.yearSem))
    || (a.yearSem == b.yearSem && LexLess(BranchCode(a.branch), BranchCode(b.branch)))
    || (a.yearSem == b.yearSem && a.branch == b.branch && LexLess(CategoryCode(a.fileCatgry), CategoryCode(b.fileCatgry)))
  }

  // The position of each value in the binary order of its code.
  function YearRank(y: YearSem): nat {
    match y case Y1 => 0 case Y2 => 1 case Y3 => 2 case Y4 => 3
  }
  function BranchRank(b: Branch): nat {
    match b
    case CE => 0 case Chem => 1 case EC => 2 case EE => 3 case Eng => 4
    case IT => 5 case Maths => 6 case ME => 7 case Phy => 8
  }
  function CategoryRank(c: Category): nat {
    match c case Books => 0 case Notes => 1 case QB => 2 case QP => 3
  }

  lemma YearRankIsCodeOrder(a: YearSem, b: YearSem)
    ensures LexLess(YearCode(a), YearCode(b)) <==> YearRank(a) < YearRank(b)
  {
  }

  lemma BranchRankIsCodeOrder(a: Branch, b: Branch)
    ensures LexLess(BranchCode(a), BranchCode(b)) <==> BranchRank(a) < BranchRank(b)
  {
    if a == b {
      LexLessIrreflexive(BranchCode(a));
    } else {
    match a
    case IT => { match b case IT => {} case EC => {} case EE => {} case ME => {} case CE => {} case Maths => {} case Chem => {} case Phy => {} case Eng => {} }
    case EC => { match b case IT => {} case EC => {} case EE => {} case ME => {} case CE => {} case Maths => {} case Chem => {} case Phy => {} case Eng => {} }
    case EE => { match b case IT => {} case EC => {} case EE => {} case ME => {} case CE => {} case Maths => {} case Chem => {} case Phy => {} case Eng => {} }
    case ME => { match b case IT => {} case EC => {} case EE => {} case ME => {} case CE => {} case Maths => {} case Chem => {} case Phy => {} case Eng => {} }
    case CE => { match b case IT => {} case EC => {} case EE => {} case ME => {} case CE => {} case Maths => {} case Chem => {} case Phy => {} case Eng => {} }
    case Maths => { match b case IT => {} case EC => {} case EE => {} case ME => {} case CE => {} case Maths => {} case Chem => {} case Phy => {} case Eng => {} }
    case Chem => { match b case IT => {} case EC => {} case EE => {} case ME => {} case CE => {} case Maths => {} case Chem => {} case Phy => {} case Eng => {} }
    case Phy => { match b case IT => {} case EC => {} case EE => {} case ME => {} case CE => {} case Maths => {} case Chem => {} case Phy => {} case Eng => {} }
    case Eng => { match b case IT => {} case EC => {} case EE => {} case ME => {} case CE => {} case Maths => {} case Chem => {} case Phy => {} case Eng => {} }
    }
  }

  lemma CategoryRankIsCodeOrder(a: Category, b: Category)
    ensures LexLess(CategoryCode(a), CategoryCode(b)) <==> CategoryRank(a) < CategoryRank(b)
  {
    if a == b {
      LexLessIrreflexive(CategoryCode(a));
    } else {
    match a
    case Books => { match b case Books => {} case Notes => {} case QP => {} case QB => {} }
    case Notes => { match b case Books => {} case Notes => {} case QP => {} case QB => {} }
    case QP => { match b case Books => {} case Notes => {} case QP => {} case QB => {} }
    case QB => { match b case Books => {} case Notes => {} case QP => {} case QB => {} }
    }
  }

  /** The position of a key in the sort order; there are 4 * 9 * 4 = 144 keys. */
  function KeyIndex(k: GroupKey): (i: nat)
    ensures i < 144
  {
    var y, b, c := YearRank(k.yearSem), BranchRank(k.branch), CategoryRank(k.fileCatgry);
    assert y <= 3 && b <= 8 && c <= 3;
    assert y * 36 <= 108 && b * 4 <= 32;
    y * 36 + b * 4 + c
  }

  lemma KeyIndexInjective(a: GroupKey, b: GroupKey)
    requires KeyIndex(a) == KeyIndex(b)
    ensures a == b
  {
    assert YearRank(a.yearSem) == KeyIndex(a) / 36 == YearRank(b.yearSem);
    assert BranchRank(a.branch) == (KeyIndex(a) % 36) / 4 == BranchRank(b.branch);
  }

  /** The store's order on keys is the order of their positions. */
  lemma KeyLessIsIndexOrder(a: GroupKey, b: GroupKey)
    ensures KeyLess(a, b) <==> KeyIndex(a) < KeyIndex(b)
  {
    YearRankIsCodeOrder(a.yearSem, b.yearSem);
    BranchRankIsCodeOrder(a.branch, b.branch);
    CategoryRankIsCodeOrder(a.fileCatgry, b.fileCatgry);
    if YearRank(a.yearSem) == YearRank(b.yearSem) {
      assert a.yearSem == b.yearSem;
      if BranchRank(a.branch) == BranchRank(b.branch) {
        assert a.branch == b.branch;
      }
    }
  }

  /** The number of active files in group `k` (`$sum: 1`). */
  function GroupCount(files: seq<FileRecord>, k: GroupKey): nat {
    if files == [] then 0
    else (if files[0].isActive && KeyOf(files[0]) == k then 1 else 0) + GroupCount(files[1..], k)
  }

  /** The downloads of the active files in group `k` (`$sum: '$downloads'`). */
  function GroupDownloads(files: seq<FileRecord>, k: GroupKey): int {
    if files == [] then 0
    else (if files[0].isActive && KeyOf(files[0]) == k then files[0].downloads else 0) + GroupDownloads(files[1..], k)
  }

  lemma {:induction false} GroupCountPositive(files: seq<FileRecord>, k: GroupKey)
    ensures GroupCount(files, k) > 0 <==> exists x :: x in files && x.isActive && KeyOf(x) == k
  {
    if files != [] {
      GroupCountPositive(files[1..], k);
      assert forall x :: x in files <==> x == files[0] || x in files[1..];
    }
  }

  function GroupAt(files: seq<FileRecord>, k: GroupKey): GroupStat {
    GroupStat(k, GroupCount(files, k), GroupDownloads(files, k))
  }

  /** Strictly ascending in the store's order of keys. */
  predicate Ascending(ks: seq<GroupKey>) {
    forall i, j :: 0 <= i < j < |ks| ==> KeyIndex(ks[i]) < KeyIndex(ks[j])
  }

  /** Adds `k` to an ascending list of distinct keys, keeping it ascending and distinct. */
  function InsertKey(k: GroupKey, ks: seq<GroupKey>): (r: seq<GroupKey>)
    requires Ascending(ks)
    ensures Ascending(r)
    ensures forall x :: x in r <==> x == k || x in ks
    ensures |r| > 0 && (r[0] == k || (|ks| > 0 && r[0] == ks[0]))
  {
    if ks == [] then [k]
    else if KeyIndex(k) < KeyIndex(ks[0]) then [k] + ks
    else if KeyIndex(k) == KeyIndex(ks[0]) then
      KeyIndexInjective(k, ks[0]);
      ks
    else
      assert ks == [ks[0]] + ks[1..];
      [ks[0]] + InsertKey(k, ks[1..])
  }

  /** The keys of the active files (the `$group` `_id`s), ascending and without repetition. */
  function ActiveKeys(files: seq<FileRecord>): (ks: seq<GroupKey>)
    ensures Ascending(ks)
    ensures forall k :: k in ks <==> GroupCount(files, k) > 0
  {
    if files == [] then []
    else
      var rest := ActiveKeys(files[1..]);
      if files[0].isActive then InsertKey(KeyOf(files[0]), rest) else rest
  }

  /**
   * `File.getFileStats()`: one entry per (yearSem, branch, fileCatgry) that has
   * active files, with their count and download total, in the store's ascending
   * order of the three code strings.
   */
  function FileStats(files: seq<FileRecord>): (r: seq<GroupStat>)
    ensures |r| == |ActiveKeys(files)|
    ensures forall i :: 0 <= i < |r| ==> r[i].key == ActiveKeys(files)[i]
    ensures forall i :: 0 <= i < |r| ==> r[i] == GroupAt(files, r[i].key) && r[i].count > 0
  {
    var ks := ActiveKeys(files);
    seq(|ks|, i requires 0 <= i < |ks| => GroupAt(files, ks[i]))
  }

  /** Every group that holds an active file is reported. */
  lemma FileStatsComplete(files: seq<FileRecord>, x: FileRecord)
    requires x in files && x.isActive
    ensures GroupAt(files, KeyOf(x)) in FileStats(files)
  {
    var ks := ActiveKeys(files);
    GroupCountPositive(files, KeyOf(x));
    var i :| 0 <= i < |ks| && ks[i] == KeyOf(x);
    assert FileStats(files)[i] == GroupAt(files, KeyOf(x));
  }

  /** The reported groups are in strictly ascending order of their codes, so no group appears twice. */
  lemma FileStatsOrdered(files: seq<FileRecord>)
    ensures forall i, j :: 0 <= i < j < |FileStats(files)| ==>
              KeyLess(FileStats(files)[i].key, FileStats(files)[j].key)
  {
    var ks := ActiveKeys(files);
    forall i, j | 0 <= i < j < |ks| ensures KeyLess(ks[i], ks[j]) {
      KeyLessIsIndexOrder(ks[i], ks[j]);
    }
  }
}
