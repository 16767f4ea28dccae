/**
 * `PackagesService`: the package search (filters, sort, page), the lookup of one package,
 * the download counter and the insertion of an indexed package into the catalog.
 */
module PackagesService {
  import opened Wrappers
  import opened Clr
  import opened Sequences
  import opened Documents
  import opened Catalog
  import PackageIndexer

  /** The service errors the operations raise. */
  datatype Fault =
    | PackageNotFound      // `WellKnownSIStorageServiceErrorCode.PackageNotFound`, HTTP 404
    | NoComparison         // `Aggregate` over an empty list of comparisons throws
    | DuplicatePackageId   // the insert of a package row whose primary key is taken fails
    | NegativeWindow       // PostgreSQL rejects a negative `OFFSET` or `LIMIT`

  const MaxInt32: int := 0x7FFF_FFFF

  // ---------------------------------------------------------------------------------------
  // Filters

  /** The `CompareMode` flags. */
  const GreaterThanFlag: bv32 := 1
  const EqualToFlag: bv32 := 2
  const LessThanFlag: bv32 := 4

  /** `NumericFilter<short>`: a compare mode and the value to compare with. */
  datatype NumericFilter = NumericFilter(mode: bv32, value: int)

  datatype PackageFilters = PackageFilters(
    publisherId: Option<int>,
    authorId: Option<int>,
    tagIds: Option<seq<int>>,
    difficulty: Option<NumericFilter>,
    restrictionIds: Option<seq<int>>,
    languageId: Option<int>,
    searchText: Option<string>)

  const NoFilters: PackageFilters := PackageFilters(None, None, None, None, None, None, None)

  /** The difficulty comparisons the mode asks for, joined by OR. */
  predicate Accepts(mode: bv32, difficulty: int, value: int) {
    (mode & LessThanFlag != 0 && difficulty < value)
    || (mode & EqualToFlag != 0 && difficulty == value)
    || (mode & GreaterThanFlag != 0 && difficulty > value)
  }

  /** The mode sets at least one of the three flags. */
  predicate HasComparison(mode: bv32) {
    mode & (LessThanFlag | EqualToFlag | GreaterThanFlag) != 0
  }

  /** The expression tree `BuildDifficultyPredicate` builds over `Difficulty.Value`. */
  datatype Expr = Lt(value: int) | Eq(value: int) | Gt(value: int) | OrElse(left: Expr, right: Expr)

  function Eval(e: Expr, difficulty: int): bool {
    match e
    case Lt(v) => difficulty < v
    case Eq(v) => difficulty == v
    case Gt(v) => difficulty > v
    case OrElse(l, r) => Eval(l, difficulty) || Eval(r, difficulty)
  }

  /** One of the collected comparisons holds. */
  ghost predicate SomeHolds(es: seq<Expr>, d: int) {
    exists k :: 0 <= k < |es| && Eval(es[k], d)
  }

  lemma SomeHoldsAppend(es: seq<Expr>, e: Expr)
    ensures forall d :: SomeHolds(es + [e], d) <==> SomeHolds(es, d) || Eval(e, d)
  {
    forall d ensures SomeHolds(es + [e], d) <==> SomeHolds(es, d) || Eval(e, d) {
      if SomeHolds(es + [e], d) {
        var k :| 0 <= k < |es + [e]| && Eval((es + [e])[k], d);
        if k < |es| {
          assert (es + [e])[k] == es[k];
        }
      }
      if SomeHolds(es, d) {
        var k :| 0 <= k < |es| && Eval(es[k], d);
        assert (es + [e])[k] == es[k];
      }
      if Eval(e, d) {
        assert (es + [e])[|es|] == e;
      }
    }
  }

  /**
   * `BuildDifficultyPredicate`: collects one comparison per flag set, in the order
   * less, equal, greater, and folds them with `OrElse`. With no flag set the fold throws.
   */
  method BuildDifficultyPredicate(filter: NumericFilter) returns (result: Result<Expr, Fault>)
    ensures result.Failure? <==> !HasComparison(filter.mode)
    ensures result.Failure? ==> result.error == NoComparison
    ensures result.Success? ==>
      forall d :: Eval(result.value, d) <==> Accepts(filter.mode, d, filter.value)
  {
    var expressions: seq<Expr> := [];
    var v := filter.value;
    if filter.mode & LessThanFlag != 0 {
      SomeHoldsAppend(expressions, Lt(v));
      expressions := expressions + [Lt(v)];
    }
    assert forall d :: SomeHolds(expressions, d) <==> filter.mode & LessThanFlag != 0 && d < v;
    if filter.mode & EqualToFlag != 0 {
      SomeHoldsAppend(expressions, Eq(v));
      expressions := expressions + [Eq(v)];
    }
    assert forall d :: SomeHolds(expressions, d) <==> (filter.mode & LessThanFlag != 0 && d < v) || (filter.mode & EqualToFlag != 0 && d == v);
    if filter.mode & GreaterThanFlag != 0 {
      SomeHoldsAppend(expressions, Gt(v));
      expressions := expressions + [Gt(v)];
    }
    assert forall d :: SomeHolds(expressions, d) <==> Accepts(filter.mode, d, v);
    if expressions == [] {
      assert !HasComparison(filter.mode) by {
        assert !Accepts(filter.mode, v - 1, v) && !Accepts(filter.mode, v, v) && !Accepts(filter.mode, v + 1, v);
      }
      return Failure(NoComparison);
    }
    assert HasComparison(filter.mode);
    var combined := expressions[0];
    for i := 1 to |expressions|
      invariant forall d :: Eval(combined, d) <==> SomeHolds(expressions[..i], d)
    {
      assert expressions[..i + 1] == expressions[..i] + [expressions[i]];
      SomeHoldsAppend(expressions[..i], expressions[i]);
      combined := OrElse(combined, expressions[i]);
    }
    assert expressions[..|expressions|] == expressions;
    result := Success(combined);
  }

  /** The flag combinations the search API documents. */
  lemma CompareModeCombinations(difficulty: int, value: int)
    ensures Accepts(GreaterThanFlag | EqualToFlag, difficulty, value) <==> difficulty >= value
    ensures Accepts(LessThanFlag | EqualToFlag, difficulty, value) <==> difficulty <= value
    ensures Accepts(LessThanFlag | GreaterThanFlag, difficulty, value) <==> difficulty != value
    ensures Accepts(LessThanFlag | EqualToFlag | GreaterThanFlag, difficulty, value)
    ensures !HasComparison(0) && !HasComparison(8)
  {
  }

  /**
   * The tag and restriction filters: no list or an empty list imposes nothing, the list
   * `[-1]` keeps the packages without any link row, and any other list keeps the packages
   * with a link row to one of the listed ids.
   */
  predicate LinkTest(links: seq<PackageLink>, ids: Option<seq<int>>, package: Guid) {
    if ids.None? || ids.value == [] then true
    else if ids.value == [-1] then !Any(links, (l: PackageLink) => l.packageId == package)
    else Any(links, (l: PackageLink) => l.packageId == package && l.itemId in ids.value)
  }

  /** The difficulty filter; a row without a difficulty compares as SQL NULL and fails. */
  predicate DifficultyTest(filter: Option<NumericFilter>, p: PackageModel) {
    filter.None? || (p.difficulty.Some? && Accepts(filter.value.mode, p.difficulty.value, filter.value.value))
  }

  predicate AuthorTest(links: seq<PackageLink>, authorId: Option<int>, p: PackageModel) {
    authorId.None? || Any(links, (l: PackageLink) => l.packageId == p.id && l.itemId == authorId.value)
  }

  /** The publisher filter: `-1` asks for packages without a publisher. */
  predicate PublisherTest(publisherId: Option<int>, p: PackageModel) {
    if publisherId.None? then true
    else if publisherId.value == -1 then p.publisherId.None?
    else p.publisherId == Some(publisherId.value)
  }

  predicate LanguageTest(languageId: Option<int>, p: PackageModel) {
    languageId.None? || p.languageId == languageId.value
  }

  predicate TextTest(searchText: Option<string>, p: PackageModel) {
    searchText.None? || Contains(p.name, searchText.value)
  }

  /** The `n`-th filter, in the order the search applies them; an absent filter passes every row. */
  predicate Test(tables: Tables, filters: PackageFilters, n: nat, p: PackageModel) {
    if n == 0 then LinkTest(tables.packageTags, filters.tagIds, p.id)
    else if n == 1 then DifficultyTest(filters.difficulty, p)
    else if n == 2 then LinkTest(tables.packageRestrictions, filters.restrictionIds, p.id)
    else if n == 3 then AuthorTest(tables.packageAuthors, filters.authorId, p)
    else if n == 4 then PublisherTest(filters.publisherId, p)
    else if n == 5 then LanguageTest(filters.languageId, p)
    else TextTest(filters.searchText, p)
  }

  const FilterCount: nat := 7

  /** A row passes the first `n` filters. */
  predicate PassesFirst(tables: Tables, filters: PackageFilters, n: nat, p: PackageModel) {
    (n > 0 ==> Test(tables, filters, 0, p))
    && (n > 1 ==> Test(tables, filters, 1, p))
    && (n > 2 ==> Test(tables, filters, 2, p))
    && (n > 3 ==> Test(tables, filters, 3, p))
    && (n > 4 ==> Test(tables, filters, 4, p))
    && (n > 5 ==> Test(tables, filters, 5, p))
    && (n > 6 ==> Test(tables, filters, 6, p))
  }

  function Passing(tables: Tables, filters: PackageFilters, n: nat): PackageModel -> bool {
    (p: PackageModel) => PassesFirst(tables, filters, n, p)
  }

  /** A row passes every filter. */
  predicate Matches(tables: Tables, filters: PackageFilters, p: PackageModel) {
    PassesFirst(tables, filters, FilterCount, p)
  }

  /** The three readings of a tag or restriction list, stated with quantifiers. */
  lemma LinkTestMeaning(links: seq<PackageLink>, ids: Option<seq<int>>, package: Guid)
    ensures ids.None? || ids.value == [] ==> LinkTest(links, ids, package)
    ensures ids == Some([-1]) ==>
      (LinkTest(links, ids, package) <==> forall l :: l in links ==> l.packageId != package)
    ensures ids.Some? && ids.value != [] && ids.value != [-1] ==>
      (LinkTest(links, ids, package) <==> exists l :: l in links && l.packageId == package && l.itemId in ids.value)
  {
    if ids.Some? && ids.value != [] {
      if ids.value == [-1] {
        AnyExists(links, (l: PackageLink) => l.packageId == package);
      } else {
        AnyExists(links, (l: PackageLink) => l.packageId == package && l.itemId in ids.value);
      }
    }
  }

  /** What it takes for a row to pass the filters, written out filter by filter. */
  lemma MatchesMeaning(tables: Tables, filters: PackageFilters, p: PackageModel)
    ensures Matches(tables, filters, p) <==>
      (filters.tagIds == Some([-1]) ==> forall l :: l in tables.packageTags ==> l.packageId != p.id)
      && (filters.tagIds.Some? && filters.tagIds.value != [] && filters.tagIds.value != [-1] ==>
          exists l :: l in tables.packageTags && l.packageId == p.id && l.itemId in filters.tagIds.value)
      && (filters.difficulty.Some? ==>
          p.difficulty.Some? && Accepts(filters.difficulty.value.mode, p.difficulty.value, filters.difficulty.value.value))
      && (filters.restrictionIds == Some([-1]) ==> forall l :: l in tables.packageRestrictions ==> l.packageId != p.id)
      && (filters.restrictionIds.Some? && filters.restrictionIds.value != [] && filters.restrictionIds.value != [-1] ==>
          exists l :: l in tables.packageRestrictions && l.packageId == p.id && l.itemId in filters.restrictionIds.value)
      && (filters.authorId.Some? ==>
          exists l :: l in tables.packageAuthors && l.packageId == p.id && l.itemId == filters.authorId.value)
      && (filters.publisherId == Some(-1) ==> p.publisherId.None?)
      && (filters.publisherId.Some? && filters.publisherId.value != -1 ==> p.publisherId == filters.publisherId)
      && (filters.languageId.Some? ==> p.languageId == filters.languageId.value)
      && (filters.searchText.Some? ==> Contains(p.name, filters.searchText.value))
  {
    LinkTestMeaning(tables.packageTags, filters.tagIds, p.id);
    LinkTestMeaning(tables.packageRestrictions, filters.restrictionIds, p.id);
    if filters.authorId.Some? {
      AnyExists(tables.packageAuthors, (l: PackageLink) => l.packageId == p.id && l.itemId == filters.authorId.value);
    }
  }

  /** `g` sets no filter that `f` does not set to the same value. */
  predicate Looser(g: PackageFilters, f: PackageFilters) {
    (g.publisherId.None? || g.publisherId == f.publisherId)
    && (g.authorId.None? || g.authorId == f.authorId)
    && (g.tagIds.None? || g.tagIds == f.tagIds)
    && (g.difficulty.None? || g.difficulty == f.difficulty)
    && (g.restrictionIds.None? || g.restrictionIds == f.restrictionIds)
    && (g.languageId.None? || g.languageId == f.languageId)
    && (g.searchText.None? || g.searchText == f.searchText)
  }

  // ---------------------------------------------------------------------------------------
  // Sorting and paging

  datatype SortMode = Name | CreatedDate | DownloadCount | Rating
  datatype SortDirection = Ascending | Descending

  /** `PackageSelectionParameters`. */
  datatype Selection = Selection(sortMode: SortMode, sortDirection: SortDirection, from: int, count: int)

  datatype PackagesPage = PackagesPage(packages: seq<PackageModel>, total: int)

  /** Names compare by the database collation, given as a rank. */
  function NameKey(collation: string -> int): PackageModel -> SortKey {
    (p: PackageModel) => SortKey(0, collation(p.name))
  }

  /** A missing date sorts after every date, so last ascending and first descending. */
  function DateKey(): PackageModel -> SortKey {
    (p: PackageModel) => if p.createDate.Some? then SortKey(0, p.createDate.value) else SortKey(1, 0)
  }

  function DownloadsKey(): PackageModel -> SortKey {
    (p: PackageModel) => SortKey(0, p.downloadCount)
  }

  /** The sort key of a mode; `Rating` (and any other mode) adds no ordering. */
  function KeyFor(mode: SortMode, collation: string -> int): Option<PackageModel -> SortKey> {
    match mode
    case Name => Some(NameKey(collation))
    case CreatedDate => Some(DateKey())
    case DownloadCount => Some(DownloadsKey())
    case Rating => None
  }

  /** The rows that pass the first `n` filters, in storage order. */
  function Passed(tables: Tables, filters: PackageFilters, n: nat): seq<PackageModel> {
    Where(tables.packages, Passing(tables, filters, n))
  }

  /** The filtered rows, in storage order. */
  function Matching(tables: Tables, filters: PackageFilters): seq<PackageModel> {
    Passed(tables, filters, FilterCount)
  }

  /** The rows in the order the selection asks for. */
  function Ordered(rows: seq<PackageModel>, selection: Selection, collation: string -> int): seq<PackageModel> {
    match KeyFor(selection.sortMode, collation)
    case None => rows
    case Some(key) => SortBy(rows, key, selection.sortDirection == Descending)
  }

  /** The search: the page of the ordered matching rows and the number of all matching rows. */
  function Search(tables: Tables, filters: PackageFilters, selection: Selection, collation: string -> int): Result<PackagesPage, Fault> {
    if filters.difficulty.Some? && !HasComparison(filters.difficulty.value.mode) then Failure(NoComparison)
    else if selection.from < 0 || selection.count < 0 then Failure(NegativeWindow)
    else
      var rows := Matching(tables, filters);
      Success(PackagesPage(Take(Skip(Ordered(rows, selection, collation), selection.from), selection.count), |rows|))
  }

  lemma LooserMatches(tables: Tables, f: PackageFilters, g: PackageFilters, p: PackageModel)
    requires Looser(g, f) && Matches(tables, f, p)
    ensures Matches(tables, g, p)
  {
  }

  /** Every filter narrows: dropping filters never loses a row. */
  lemma {:induction false} FiltersNarrow(tables: Tables, f: PackageFilters, g: PackageFilters)
    requires Looser(g, f)
    ensures forall p :: Matches(tables, f, p) ==> Matches(tables, g, p)
    ensures forall p :: p in Matching(tables, f) ==> p in Matching(tables, g)
    ensures |Matching(tables, f)| <= |Matching(tables, g)|
    ensures Matching(tables, NoFilters) == tables.packages
  {
    forall p | Matches(tables, f, p) ensures Matches(tables, g, p) {
      LooserMatches(tables, f, g, p);
    }
    WhereMonotone(tables.packages, Passing(tables, f, FilterCount), Passing(tables, g, FilterCount));
    forall p ensures Matches(tables, NoFilters, p) {
      LinkTestMeaning(tables.packageTags, None, p.id);
      LinkTestMeaning(tables.packageRestrictions, None, p.id);
    }
    WhereAll(tables.packages, Passing(tables, NoFilters, FilterCount));
  }

  lemma {:induction false} WhereAll<T>(s: seq<T>, p: T -> bool)
    requires forall x :: x in s ==> p(x)
    ensures Where(s, p) == s
    decreases |s|
  {
    if s != [] {
      WhereAll(s[1..], p);
    }
  }

  lemma {:induction false} SortedSlice<T>(s: seq<T>, key: T -> SortKey, descending: bool, from: int, count: int)
    requires Sorted(s, key, descending)
    ensures Sorted(Take(Skip(s, from), count), key, descending)
  {
    var t := Skip(s, from);
    assert Sorted(t, key, descending) by {
      if 0 < from < |s| {
        forall i, j | 0 <= i < j < |t| ensures Before(key, descending, t[i], t[j]) {
          assert t[i] == s[from + i] && t[j] == s[from + j];
        }
      }
    }
    var u := Take(t, count);
    forall i, j | 0 <= i < j < |u| ensures Before(key, descending, u[i], u[j]) {
      assert u[i] == t[i] && u[j] == t[j];
    }
  }

  lemma TakeSkipIn<T>(s: seq<T>, from: int, count: int)
    ensures |Take(Skip(s, from), count)| <= if count < 0 then 0 else count
    ensures forall x :: x in Take(Skip(s, from), count) ==> x in s
    ensures from <= 0 && count > 0 && Take(Skip(s, from), count) == [] ==> s == []
  {
    var t := Skip(s, from);
    assert forall x :: x in t ==> x in s;
  }

  /**
   * A successful search: the page holds at most `Count` matching rows, `Total` counts all
   * matching rows whatever the paging, a non-empty page means a positive total, and an
   * empty first page means there is nothing to find.
   */
  lemma {:induction false} SearchPage(tables: Tables, filters: PackageFilters, selection: Selection, collation: string -> int)
    requires Search(tables, filters, selection, collation).Success?
    ensures var page := Search(tables, filters, selection, collation).value;
      && page.total == |Matching(tables, filters)|
      && 0 <= selection.from && 0 <= selection.count
      && |page.packages| <= selection.count
      && (forall p :: p in page.packages ==> p in tables.packages && Matches(tables, filters, p))
      && (page.packages != [] ==> page.total > 0)
      && (selection.from <= 0 && selection.count > 0 && page.packages == [] ==> page.total == 0)
  {
    var rows := Matching(tables, filters);
    var ordered := Ordered(rows, selection, collation);
    assert multiset(ordered) == multiset(rows) by {
      match KeyFor(selection.sortMode, collation)
      case None =>
      case Some(key) => SortByCorrect(rows, key, selection.sortDirection == Descending);
    }
    assert |ordered| == |rows| by {
      assert |multiset(ordered)| == |multiset(rows)|;
    }
    forall x | x in ordered ensures x in rows {
      assert x in multiset(ordered);
    }
    TakeSkipIn(ordered, selection.from, selection.count);
  }

  /**
   * The search fails exactly when the difficulty filter sets no comparison flag, which
   * throws while the query is built, or when `From` or `Count` is negative, which the
   * database rejects when the query runs.
   */
  lemma SearchFaults(tables: Tables, filters: PackageFilters, selection: Selection, collation: string -> int)
    ensures Search(tables, filters, selection, collation).Failure? <==>
      (filters.difficulty.Some? && !HasComparison(filters.difficulty.value.mode))
      || selection.from < 0 || selection.count < 0
    ensures filters.difficulty.Some? && !HasComparison(filters.difficulty.value.mode) ==>
      Search(tables, filters, selection, collation) == Failure(NoComparison)
    ensures (filters.difficulty.None? || HasComparison(filters.difficulty.value.mode)) && (selection.from < 0 || selection.count < 0)
      ==> Search(tables, filters, selection, collation) == Failure(NegativeWindow)
  {
  }

  /**
   * The page is a window of a permutation of the matching rows, sorted by the requested
   * key in the requested direction; with `Rating` the rows keep their storage order.
   */
  lemma SearchOrder(tables: Tables, filters: PackageFilters, selection: Selection, collation: string -> int)
    requires Search(tables, filters, selection, collation).Success?
    ensures multiset(Ordered(Matching(tables, filters), selection, collation)) == multiset(Matching(tables, filters))
    ensures KeyFor(selection.sortMode, collation).Some? ==>
      Sorted(Search(tables, filters, selection, collation).value.packages,
             KeyFor(selection.sortMode, collation).value, selection.sortDirection == Descending)
    ensures selection.sortMode == Rating ==> Ordered(Matching(tables, filters), selection, collation) == Matching(tables, filters)
  {
    var rows := Matching(tables, filters);
    match KeyFor(selection.sortMode, collation)
    case None =>
    case Some(key) =>
      SortByCorrect(rows, key, selection.sortDirection == Descending);
      SortedSlice(SortBy(rows, key, selection.sortDirection == Descending), key,
                  selection.sortDirection == Descending, selection.from, selection.count);
  }

  // ---------------------------------------------------------------------------------------
  // Dictionary tables

  /** `FirstAsync(r => r.Key == key).Id`: the id of the first row with the key. */
  function Find<K(==)>(rows: seq<Entity<K>>, key: K): (r: Option<int>)
    ensures r.Some? ==> exists i :: 0 <= i < |rows| && rows[i] == Entity(r.value, key)
    ensures r.None? ==> forall i :: 0 <= i < |rows| ==> rows[i].key != key
    decreases |rows|
  {
    if rows == [] then None
    else if rows[0].key == key then Some(rows[0].id)
    else
      var r := Find(rows[1..], key);
      assert r.Some? ==> exists i :: 0 <= i < |rows[1..]| && rows[1..][i] == Entity(r.value, key);
      r
  }

  lemma {:induction false} FindAppend<K>(rows: seq<Entity<K>>, e: Entity<K>, key: K)
    ensures Find(rows + [e], key) == if Find(rows, key).Some? then Find(rows, key) else if e.key == key then Some(e.id) else None
    decreases |rows|
  {
    if rows == [] {
      assert rows + [e] == [e];
    } else {
      assert (rows + [e])[1..] == rows[1..] + [e];
      FindAppend(rows[1..], e, key);
    }
  }

  /** Keys are unique, ids are unique, and every id is below the next value of the sequence. */
  ghost predicate WellFormed<K>(table: KeyedTable<K>) {
    (forall i, j :: 0 <= i < j < |table.rows| ==> table.rows[i].key != table.rows[j].key && table.rows[i].id != table.rows[j].id)
    && (forall i :: 0 <= i < |table.rows| ==> table.rows[i].id < table.nextId)
  }

  /**
   * `InsertOrUpdateAsync` followed by `FirstAsync` on the key: finds the row with the key,
   * or appends one with the next id, and returns the id.
   */
  function Upsert<K(==,!new)>(table: KeyedTable<K>, key: K): (r: (KeyedTable<K>, int))
    ensures Find(r.0.rows, key) == Some(r.1)
    ensures forall k :: Find(table.rows, k).Some? ==> Find(r.0.rows, k) == Find(table.rows, k)
    ensures r.0.rows == table.rows || r.0.rows == table.rows + [Entity(table.nextId, key)]
    ensures WellFormed(table) ==> WellFormed(r.0)
  {
    match Find(table.rows, key)
    case Some(id) => (table, id)
    case None =>
      var e := Entity(table.nextId, key);
      assert forall k :: Find(table.rows + [e], k) == if Find(table.rows, k).Some? then Find(table.rows, k) else if e.key == k then Some(e.id) else None by {
        forall k { FindAppend(table.rows, e, k); }
      }
      (KeyedTable(table.rows + [e], table.nextId + 1), table.nextId)
  }

  /** Upserting a key twice changes nothing the second time. */
  lemma UpsertIdempotent<K(!new)>(table: KeyedTable<K>, key: K)
    ensures Upsert(Upsert(table, key).0, key) == Upsert(table, key)
  {
  }

  /**
   * The dictionary upserts of the author (tag) loop: `names` upserted one after another,
   * with the id each name is filed under.
   */
  function UpsertAll(table: KeyedTable<string>, names: seq<string>): (r: (KeyedTable<string>, seq<int>))
    ensures |r.1| == |names|
    ensures forall k :: 0 <= k < |names| ==> Find(r.0.rows, names[k]) == Some(r.1[k])
    ensures forall k :: Find(table.rows, k).Some? ==> Find(r.0.rows, k) == Find(table.rows, k)
    ensures |table.rows| <= |r.0.rows| && r.0.rows[..|table.rows|] == table.rows
    ensures forall i :: |table.rows| <= i < |r.0.rows| ==> r.0.rows[i].key in names
    ensures WellFormed(table) ==> WellFormed(r.0)
    decreases |names|
  {
    if names == [] then (table, [])
    else
      var front := UpsertAll(table, names[..|names| - 1]);
      var last := Upsert(front.0, names[|names| - 1]);
      UpsertStep(table, names, front.0, front.1, last.0, last.1);
      (last.0, front.1 + [last.1])
  }

  /** One more upsert extends the fold of the names before it by the last name. */
  lemma UpsertStep(
    table: KeyedTable<string>, names: seq<string>, front: KeyedTable<string>, ids: seq<int>, last: KeyedTable<string>, id: int)
    requires names != [] && (last, id) == Upsert(front, names[|names| - 1])
    requires |ids| == |names| - 1
    requires forall k :: 0 <= k < |names| - 1 ==> Find(front.rows, names[k]) == Some(ids[k])
    requires forall k :: Find(table.rows, k).Some? ==> Find(front.rows, k) == Find(table.rows, k)
    requires |table.rows| <= |front.rows| && front.rows[..|table.rows|] == table.rows
    requires forall i :: |table.rows| <= i < |front.rows| ==> front.rows[i].key in names[..|names| - 1]
    ensures forall k :: 0 <= k < |names| ==> Find(last.rows, names[k]) == Some((ids + [id])[k])
    ensures forall k :: Find(table.rows, k).Some? ==> Find(last.rows, k) == Find(table.rows, k)
    ensures |table.rows| <= |last.rows| && last.rows[..|table.rows|] == table.rows
    ensures forall i :: |table.rows| <= i < |last.rows| ==> last.rows[i].key in names
  {
    forall i | |table.rows| <= i < |last.rows|
      ensures last.rows[i].key in names
    {
      if i < |front.rows| {
        assert last.rows[i] == front.rows[i];
        assert front.rows[i].key in names[..|names| - 1];
      }
    }
    forall k | 0 <= k < |names|
      ensures Find(last.rows, names[k]) == Some((ids + [id])[k])
    {
      if k < |names| - 1 {
        assert Find(front.rows, names[k]).Some?;
      }
    }
  }

  /** Names already in the dictionary add no row: a list of known names leaves the table as it is. */
  lemma {:induction false} UpsertAllKnown(table: KeyedTable<string>, names: seq<string>)
    requires forall k :: 0 <= k < |names| ==> Find(table.rows, names[k]).Some?
    ensures UpsertAll(table, names).0 == table
    ensures forall k :: 0 <= k < |names| ==> UpsertAll(table, names).1[k] == Find(table.rows, names[k]).value
    decreases |names|
  {
    if names != [] {
      UpsertAllKnown(table, names[..|names| - 1]);
    }
  }

  /**
   * One link row per name, in order (the author and tag loops): every name is upserted
   * into the dictionary and a link from the package to its id is appended.
   */
  method LinkAll(table: KeyedTable<string>, package: Guid, names: seq<string>)
    returns (table': KeyedTable<string>, links: seq<PackageLink>)
    ensures table' == UpsertAll(table, names).0
    ensures |links| == |names|
    ensures forall k :: 0 <= k < |names| ==> links[k] == PackageLink(package, UpsertAll(table, names).1[k])
    ensures forall k :: 0 <= k < |names| ==>
      links[k].packageId == package && Find(table'.rows, names[k]) == Some(links[k].itemId)
  {
    table', links := table, [];
    ghost var ids: seq<int> := [];
    for i := 0 to |names|
      invariant (table', ids) == UpsertAll(table, names[..i])
      invariant |links| == i
      invariant forall k :: 0 <= k < i ==> links[k] == PackageLink(package, ids[k])
    {
      assert names[..i + 1][..i] == names[..i];
      var upserted := Upsert(table', names[i]);
      table' := upserted.0;
      ids := ids + [upserted.1];
      links := links + [PackageLink(package, upserted.1)];
    }
    assert names[..|names|] == names;
  }

  /**
   * `after` is `before` followed by one link per name, in order, each from the package to the
   * id `table` files the name under.
   */
  ghost predicate LinksAppended(before: seq<PackageLink>, after: seq<PackageLink>, table: KeyedTable<string>, package: Guid, names: seq<string>) {
    |after| == |before| + |names|
    && after[..|before|] == before
    && forall k :: 0 <= k < |names| ==>
      after[|before| + k].packageId == package && Find(table.rows, names[k]) == Some(after[|before| + k].itemId)
  }

  lemma LinksAppendedBy(before: seq<PackageLink>, links: seq<PackageLink>, table: KeyedTable<string>, package: Guid, names: seq<string>)
    requires |links| == |names|
    requires forall k :: 0 <= k < |names| ==> links[k].packageId == package && Find(table.rows, names[k]) == Some(links[k].itemId)
    ensures LinksAppended(before, before + links, table, package, names)
  {
    var after := before + links;
    assert after[..|before|] == before;
    forall k | 0 <= k < |names|
      ensures after[|before| + k] == links[k]
    {
    }
  }

  // ---------------------------------------------------------------------------------------
  // Download counter

  /**
   * The `UPDATE ... SET DownloadCount = DownloadCount + 1` statement: every row with the id
   * is incremented, unless one of them is at `int.MaxValue`, where the database rejects the
   * whole statement.
   */
  function Incremented(rows: seq<PackageModel>, id: Guid): (r: Option<seq<PackageModel>>)
    ensures r.None? <==> exists i :: 0 <= i < |rows| && rows[i].id == id && rows[i].downloadCount >= MaxInt32
    ensures r.Some? ==> |r.value| == |rows|
  {
    if exists i :: 0 <= i < |rows| && rows[i].id == id && rows[i].downloadCount >= MaxInt32 then None
    else Some(seq(|rows|, i requires 0 <= i < |rows| =>
      if rows[i].id == id then rows[i].(downloadCount := rows[i].downloadCount + 1) else rows[i]))
  }

  /** The downloads of all rows. */
  function TotalDownloads(rows: seq<PackageModel>): int
    decreases |rows|
  {
    if rows == [] then 0 else TotalDownloads(rows[..|rows| - 1]) + rows[|rows| - 1].downloadCount
  }

  ghost predicate UniqueIds(rows: seq<PackageModel>) {
    forall i, j :: 0 <= i < j < |rows| ==> rows[i].id != rows[j].id
  }

  /** Some row has the id. */
  ghost predicate Listed(rows: seq<PackageModel>, id: Guid) {
    exists i :: 0 <= i < |rows| && rows[i].id == id
  }

  /** `updated` is `rows` with the download count of every row with the id raised by one. */
  ghost predicate IncrementOf(rows: seq<PackageModel>, updated: seq<PackageModel>, id: Guid) {
    |updated| == |rows|
    && forall i :: 0 <= i < |rows| ==>
      updated[i] == if rows[i].id == id then rows[i].(downloadCount := rows[i].downloadCount + 1) else rows[i]
  }

  /** Dropping the last row of both tables keeps the one the increment of the other. */
  lemma IncrementOfFront(rows: seq<PackageModel>, updated: seq<PackageModel>, id: Guid)
    requires rows != [] && IncrementOf(rows, updated, id)
    ensures IncrementOf(rows[..|rows| - 1], updated[..|rows| - 1], id)
  {
  }

  /** The id is listed when it is in the front or is the last row's, and only once when the ids are unique. */
  lemma ListedFront(rows: seq<PackageModel>, id: Guid)
    requires rows != [] && UniqueIds(rows)
    ensures Listed(rows, id) <==> Listed(rows[..|rows| - 1], id) || rows[|rows| - 1].id == id
    ensures rows[|rows| - 1].id == id ==> !Listed(rows[..|rows| - 1], id)
    ensures UniqueIds(rows[..|rows| - 1])
  {
    var n := |rows| - 1;
    if Listed(rows, id) && rows[n].id != id {
      var i :| 0 <= i < |rows| && rows[i].id == id;
      assert rows[..n][i].id == id;
    }
    if Listed(rows[..n], id) {
      var i :| 0 <= i < n && rows[..n][i].id == id;
      assert rows[i].id == id;
    }
  }

  lemma {:induction false} IncrementedTotal(rows: seq<PackageModel>, updated: seq<PackageModel>, id: Guid)
    requires IncrementOf(rows, updated, id) && UniqueIds(rows)
    ensures TotalDownloads(updated) == TotalDownloads(rows) + (if Listed(rows, id) then 1 else 0)
    decreases |rows|
  {
    if rows != [] {
      var n := |rows| - 1;
      IncrementOfFront(rows, updated, id);
      ListedFront(rows, id);
      IncrementedTotal(rows[..n], updated[..n], id);
    }
  }

  /**
   * Incrementing adds exactly one download to the catalog when the package exists and is
   * below the limit, and changes nothing otherwise.
   */
  lemma IncrementAddsOne(rows: seq<PackageModel>, id: Guid)
    requires UniqueIds(rows)
    ensures Incremented(rows, id).Some? ==>
      TotalDownloads(Incremented(rows, id).value) == TotalDownloads(rows) + (if exists p :: p in rows && p.id == id then 1 else 0)
    ensures Incremented(rows, id).Some? && (forall p :: p in rows ==> p.id != id) ==> Incremented(rows, id).value == rows
    ensures Incremented(rows, id).Some? ==> UniqueIds(Incremented(rows, id).value)
  {
    var r := Incremented(rows, id);
    if r.Some? {
      IncrementedTotal(rows, r.value, id);
      assert (exists p :: p in rows && p.id == id) == Listed(rows, id);
    }
  }

  // The `Where` clauses the search adds, one per filter.

  function LinkQuery(links: seq<PackageLink>, ids: Option<seq<int>>): PackageModel -> bool {
    (p: PackageModel) => LinkTest(links, ids, p.id)
  }

  function DifficultyQuery(e: Expr): PackageModel -> bool {
    (p: PackageModel) => p.difficulty.Some? && Eval(e, p.difficulty.value)
  }

  function AuthorQuery(links: seq<PackageLink>, authorId: Option<int>): PackageModel -> bool {
    (p: PackageModel) => AuthorTest(links, authorId, p)
  }

  function NoPublisherQuery(): PackageModel -> bool {
    (p: PackageModel) => p.publisherId.None?
  }

  function PublisherQuery(publisherId: int): PackageModel -> bool {
    (p: PackageModel) => p.publisherId == Some(publisherId)
  }

  function LanguageQuery(languageId: int): PackageModel -> bool {
    (p: PackageModel) => p.languageId == languageId
  }

  function TextQuery(text: string): PackageModel -> bool {
    (p: PackageModel) => Contains(p.name, text)
  }

  /** Applying filter `n` to the rows that pass the first `n` filters. */
  lemma StageApplied(all: seq<PackageModel>, tables: Tables, filters: PackageFilters, n: nat, q: PackageModel -> bool)
    requires n < FilterCount
    requires forall x :: q(x) == Test(tables, filters, n, x)
    ensures Where(Where(all, Passing(tables, filters, n)), q) == Where(all, Passing(tables, filters, n + 1))
  {
    WhereWhere(all, Passing(tables, filters, n), q, Passing(tables, filters, n + 1));
  }

  /** Skipping filter `n` when it is absent. */
  lemma StageSkipped(all: seq<PackageModel>, tables: Tables, filters: PackageFilters, n: nat)
    requires n < FilterCount
    requires forall x :: Test(tables, filters, n, x)
    ensures Where(all, Passing(tables, filters, n)) == Where(all, Passing(tables, filters, n + 1))
  {
    WhereCongruent(all, Passing(tables, filters, n), Passing(tables, filters, n + 1));
  }

  /** `query` is the `Where` clause of filter `n`, or absent when filter `n` passes every row. */
  ghost predicate Agrees(tables: Tables, filters: PackageFilters, n: nat, query: Option<PackageModel -> bool>) {
    (query.None? ==> forall x :: Test(tables, filters, n, x))
    && (query.Some? ==> forall x :: query.value(x) == Test(tables, filters, n, x))
  }

  /** The clauses for the link filters and difficulty agree with the filters they implement. */
  lemma LinkQueriesAgree(tables: Tables, filters: PackageFilters)
    ensures Agrees(tables, filters, 0,
      if filters.tagIds.Some? && filters.tagIds.value != [] then Some(LinkQuery(tables.packageTags, filters.tagIds)) else None)
    ensures filters.difficulty.None? ==> Agrees(tables, filters, 1, None)
    ensures Agrees(tables, filters, 2,
      if filters.restrictionIds.Some? && filters.restrictionIds.value != [] then Some(LinkQuery(tables.packageRestrictions, filters.restrictionIds)) else None)
    ensures Agrees(tables, filters, 3,
      if filters.authorId.Some? then Some(AuthorQuery(tables.packageAuthors, filters.authorId)) else None)
  {
  }

  /** The clauses for the package's own columns agree with the filters they implement. */
  lemma ColumnQueriesAgree(tables: Tables, filters: PackageFilters)
    ensures Agrees(tables, filters, 4,
      if filters.publisherId.None? then None
      else if filters.publisherId.value == -1 then Some(NoPublisherQuery())
      else Some(PublisherQuery(filters.publisherId.value)))
    ensures Agrees(tables, filters, 5,
      if filters.languageId.Some? then Some(LanguageQuery(filters.languageId.value)) else None)
    ensures Agrees(tables, filters, 6,
      if filters.searchText.Some? then Some(TextQuery(filters.searchText.value)) else None)
  {
  }

  lemma DifficultyAgrees(tables: Tables, filters: PackageFilters, e: Expr)
    requires filters.difficulty.Some?
    requires forall d :: Eval(e, d) <==> Accepts(filters.difficulty.value.mode, d, filters.difficulty.value.value)
    ensures Agrees(tables, filters, 1, Some(DifficultyQuery(e)))
  {
  }

  /** Adds the `Where` clause of filter `n` to the query when the filter is present. */
  method Narrow(ghost tables: Tables, ghost filters: PackageFilters, ghost n: nat,
                packages: seq<PackageModel>, query: Option<PackageModel -> bool>)
    returns (narrowed: seq<PackageModel>)
    requires n < FilterCount
    requires packages == Passed(tables, filters, n)
    requires Agrees(tables, filters, n, query)
    ensures narrowed == Passed(tables, filters, n + 1)
  {
    ghost var all := tables.packages;
    if query.Some? {
      StageApplied(all, tables, filters, n, query.value);
      narrowed := Where(packages, query.value);
    } else {
      StageSkipped(all, tables, filters, n);
      narrowed := packages;
    }
  }

  /**
   * The filter part of `GetPackagesAsync`: each present filter narrows the query in turn;
   * a difficulty filter without comparison flags makes the predicate builder throw.
   */
  method ApplyFilters(tables: Tables, filters: PackageFilters) returns (result: Result<seq<PackageModel>, Fault>)
    ensures result.Failure? <==> filters.difficulty.Some? && !HasComparison(filters.difficulty.value.mode)
    ensures result.Failure? ==> result.error == NoComparison
    ensures result.Success? ==> result.value == Matching(tables, filters)
  {
    result := FilterByLinks(tables, filters);
    if result.Success? {
      var packages := FilterByColumns(tables, filters, result.value);
      result := Success(packages);
    }
  }

  /** The tag, difficulty, restriction and author filters, in that order. */
  method FilterByLinks(tables: Tables, filters: PackageFilters) returns (result: Result<seq<PackageModel>, Fault>)
    ensures result.Failure? <==> filters.difficulty.Some? && !HasComparison(filters.difficulty.value.mode)
    ensures result.Failure? ==> result.error == NoComparison
    ensures result.Success? ==> result.value == Passed(tables, filters, 4)
  {
    var packages := tables.packages;
    WhereAll(packages, Passing(tables, filters, 0));
    LinkQueriesAgree(tables, filters);

    var tags := if filters.tagIds.Some? && filters.tagIds.value != [] then Some(LinkQuery(tables.packageTags, filters.tagIds)) else None;
    packages := Narrow(tables, filters, 0, packages, tags);

    var narrowed := FilterByDifficulty(tables, filters, packages);
    if narrowed.Failure? {
      return narrowed;
    }
    packages := narrowed.value;

    var restrictions := if filters.restrictionIds.Some? && filters.restrictionIds.value != [] then Some(LinkQuery(tables.packageRestrictions, filters.restrictionIds)) else None;
    packages := Narrow(tables, filters, 2, packages, restrictions);

    var author := if filters.authorId.Some? then Some(AuthorQuery(tables.packageAuthors, filters.authorId)) else None;
    packages := Narrow(tables, filters, 3, packages, author);
    result := Success(packages);
  }

  /** The difficulty filter, built by `BuildDifficultyPredicate`. */
  method FilterByDifficulty(tables: Tables, filters: PackageFilters, packages: seq<PackageModel>)
    returns (result: Result<seq<PackageModel>, Fault>)
    requires packages == Passed(tables, filters, 1)
    ensures result.Failure? <==> filters.difficulty.Some? && !HasComparison(filters.difficulty.value.mode)
    ensures result.Failure? ==> result.error == NoComparison
    ensures result.Success? ==> result.value == Passed(tables, filters, 2)
  {
    var difficulty: Option<PackageModel -> bool> := None;
    if filters.difficulty.Some? {
      var built := BuildDifficultyPredicate(filters.difficulty.value);
      if built.Failure? {
        return Failure(built.error);
      }
      DifficultyAgrees(tables, filters, built.value);
      difficulty := Some(DifficultyQuery(built.value));
    } else {
      LinkQueriesAgree(tables, filters);
    }
    var narrowed := Narrow(tables, filters, 1, packages, difficulty);
    result := Success(narrowed);
  }

  /** The publisher, language and search-text filters, in that order. */
  method FilterByColumns(tables: Tables, filters: PackageFilters, packages: seq<PackageModel>) returns (filtered: seq<PackageModel>)
    requires packages == Passed(tables, filters, 4)
    ensures filtered == Matching(tables, filters)
  {
    ColumnQueriesAgree(tables, filters);
    var publisher :=
      if filters.publisherId.None? then None
      else if filters.publisherId.value == -1 then Some(NoPublisherQuery())
      else Some(PublisherQuery(filters.publisherId.value));
    filtered := Narrow(tables, filters, 4, packages, publisher);

    var language := if filters.languageId.Some? then Some(LanguageQuery(filters.languageId.value)) else None;
    filtered := Narrow(tables, filters, 5, filtered, language);

    var text := if filters.searchText.Some? then Some(TextQuery(filters.searchText.value)) else None;
    filtered := Narrow(tables, filters, 6, filtered, text);
  }

  // ---------------------------------------------------------------------------------------
  // The service

  /** The language row a package is filed under: only "en-US" is kept, everything else is "ru-RU". */
  function LanguageCode(language: Option<string>): (code: string)
    ensures code == "en-US" <==> language == Some("en-US")
    ensures code == "en-US" || code == "ru-RU"
  {
    if language == Some("en-US") then "en-US" else "ru-RU"
  }

  const Age: string := "Age"

  class PackagesService {
    var db: Tables
    /** The database's order on names, as a rank. */
    const collation: string -> int

    ghost predicate Valid()
      reads this
    {
      UniqueIds(db.packages)
      && WellFormed(db.authors) && WellFormed(db.publishers) && WellFormed(db.tags)
      && WellFormed(db.languages) && WellFormed(db.restrictions)
    }

    constructor(tables: Tables, collation: string -> int)
      ensures db == tables && this.collation == collation
    {
      db := tables;
      this.collation := collation;
    }

    /** `GetPackageAsync`: the first row with the id, or `PackageNotFound`. */
    method GetPackage(id: Guid) returns (result: Result<PackageModel, Fault>)
      ensures result.Success? ==>
        result.value.id == id && exists i :: 0 <= i < |db.packages| && db.packages[i] == result.value && forall j :: 0 <= j < i ==> db.packages[j].id != id
      ensures result.Failure? <==> forall p :: p in db.packages ==> p.id != id
      ensures result.Failure? ==> result.error == PackageNotFound
    {
      var rows := db.packages;
      for i := 0 to |rows|
        invariant forall j :: 0 <= j < i ==> rows[j].id != id
      {
        if rows[i].id == id {
          return Success(rows[i]);
        }
      }
      return Failure(PackageNotFound);
    }

    /** `IncrementDownloadCountAsync`: a failing update is logged and swallowed. */
    method IncrementDownloadCount(id: Guid)
      requires Valid()
      modifies this
      ensures Valid()
      ensures Incremented(old(db.packages), id).None? ==> db == old(db)
      ensures Incremented(old(db.packages), id).Some? ==>
        db == old(db).(packages := Incremented(old(db.packages), id).value)
      ensures forall i :: 0 <= i < |db.packages| ==>
        db.packages[i] == old(db.packages[i]) || (db.packages[i].id == id && db.packages[i] == old(db.packages[i]).(downloadCount := old(db.packages[i]).downloadCount + 1))
    {
      var updated := Incremented(db.packages, id);
      IncrementAddsOne(db.packages, id);
      if updated.Some? {
        db := db.(packages := updated.value);
      }
    }

    /** `GetPackagesAsync`: applies the present filters one after another, sorts, and pages. */
    method GetPackages(filters: PackageFilters, selection: Selection) returns (result: Result<PackagesPage, Fault>)
      ensures result == Search(db, filters, selection, collation)
    {
      var filtered := ApplyFilters(db, filters);
      if filtered.Failure? {
        return Failure(filtered.error);
      }
      var packages := filtered.value;
      if selection.from < 0 || selection.count < 0 {
        return Failure(NegativeWindow);
      }
      var total := |packages|;
      var descending := selection.sortDirection != Ascending;
      match selection.sortMode {
        case Name => packages := SortBy(packages, NameKey(collation), descending);
        case CreatedDate => packages := SortBy(packages, DateKey(), descending);
        case DownloadCount => packages := SortBy(packages, DownloadsKey(), descending);
        case Rating =>
      }
      var page := Take(Skip(packages, selection.from), selection.count);
      result := Success(PackagesPage(page, total));
    }

    /**
     * `AddPackageAsync`: files an indexed package. The language is normalised, a null or
     * empty publisher gives no publisher, every author and tag gets one link row, and a
     * non-blank restriction gets one "Age" restriction row.
     */
    method AddPackage(
      packageId: Guid, packageName: string, metadata: PackageIndexer.PackageInfo,
      fileName: string, fileSize: int, logoUri: Option<string>)
      returns (result: Result<(), Fault>)
      requires Valid()
      modifies this
      ensures Valid()
      ensures db.languages == Upsert(old(db.languages), LanguageCode(metadata.language)).0
      ensures IsNullOrEmpty(metadata.publisher) ==> db.publishers == old(db.publishers)
      ensures !IsNullOrEmpty(metadata.publisher) ==> db.publishers == Upsert(old(db.publishers), metadata.publisher.value).0
      ensures result.Failure? <==> exists p :: p in old(db.packages) && p.id == packageId
      ensures result.Failure? ==>
        result.error == DuplicatePackageId && db == old(db).(languages := db.languages, publishers := db.publishers)
      ensures result.Success? ==> |db.packages| == |old(db.packages)| + 1 && db.packages[..|old(db.packages)|] == old(db.packages)
      ensures result.Success? ==> var row := db.packages[|old(db.packages)|];
        && row.id == packageId && row.name == metadata.name && row.originalFileName == packageName
        && row.fileName == fileName && row.size == fileSize && row.logoUri == logoUri
        && row.difficulty == Some(metadata.difficulty) && row.createDate == Some(metadata.createDate)
        && row.questionCount == Some(metadata.questionCount) && row.rounds == metadata.rounds
        && row.contentTypeStatistic == metadata.contentTypeStatistic
        && row.downloadable && row.downloadCount == 0
        && Find(db.languages.rows, LanguageCode(metadata.language)) == Some(row.languageId)
        && (IsNullOrEmpty(metadata.publisher) <==> row.publisherId.None?)
        && (row.publisherId.Some? ==> Find(db.publishers.rows, metadata.publisher.value) == row.publisherId)
      ensures result.Success? ==>
        db.authors == UpsertAll(old(db.authors), metadata.authors).0 && db.tags == UpsertAll(old(db.tags), metadata.tags).0
      ensures result.Success? ==> LinksAppended(old(db.packageAuthors), db.packageAuthors, db.authors, packageId, metadata.authors)
      ensures result.Success? ==> LinksAppended(old(db.packageTags), db.packageTags, db.tags, packageId, metadata.tags)
      ensures result.Success? && IsNullOrWhiteSpace(Some(metadata.restriction)) ==>
        db.packageRestrictions == old(db.packageRestrictions) && db.restrictions == old(db.restrictions)
      ensures result.Success? && !IsNullOrWhiteSpace(Some(metadata.restriction)) ==>
        var key := RestrictionKey(Age, metadata.restriction);
        && db.restrictions == Upsert(old(db.restrictions), key).0
        && db.packageRestrictions == old(db.packageRestrictions) + [PackageLink(packageId, Upsert(old(db.restrictions), key).1)]
    {
      var languageId, publisherId := InsertDictionaries(metadata);
      var row := PackageModel(
        packageId, metadata.name, Some(metadata.difficulty), publisherId, Some(metadata.createDate),
        languageId, packageName, fileName, logoUri, true, 0, fileSize,
        metadata.rounds, Some(metadata.questionCount), metadata.contentTypeStatistic);
      result := InsertPackageRow(row);
      if result.Failure? {
        return;
      }
      InsertLinks(packageId, metadata.authors, metadata.tags);
      if IsNullOrWhiteSpace(Some(metadata.restriction)) {
        return Success(());
      }
      InsertRestriction(packageId, metadata.restriction);
    }

    /** The language and publisher upserts that open `AddPackageAsync`. */
    method InsertDictionaries(metadata: PackageIndexer.PackageInfo) returns (languageId: int, publisherId: Option<int>)
      requires Valid()
      modifies this
      ensures Valid()
      ensures (db.languages, languageId) == Upsert(old(db.languages), LanguageCode(metadata.language))
      ensures IsNullOrEmpty(metadata.publisher) ==> db.publishers == old(db.publishers) && publisherId.None?
      ensures !IsNullOrEmpty(metadata.publisher) ==>
        publisherId.Some? && (db.publishers, publisherId.value) == Upsert(old(db.publishers), metadata.publisher.value)
      ensures db == old(db).(languages := db.languages, publishers := db.publishers)
    {
      var language := Upsert(db.languages, LanguageCode(metadata.language));
      db := db.(languages := language.0);
      languageId := language.1;
      publisherId := None;
      if !IsNullOrEmpty(metadata.publisher) {
        var publisher := Upsert(db.publishers, metadata.publisher.value);
        db := db.(publishers := publisher.0);
        publisherId := Some(publisher.1);
      }
    }

    /** The package row insert; the primary key rejects a second row with the same id. */
    method InsertPackageRow(row: PackageModel) returns (result: Result<(), Fault>)
      requires Valid()
      modifies this
      ensures Valid()
      ensures result.Failure? <==> exists p :: p in old(db.packages) && p.id == row.id
      ensures result.Failure? ==> result.error == DuplicatePackageId && db == old(db)
      ensures result.Success? ==> db == old(db).(packages := old(db.packages) + [row])
    {
      for i := 0 to |db.packages|
        invariant forall j :: 0 <= j < i ==> db.packages[j].id != row.id
      {
        if db.packages[i].id == row.id {
          return Failure(DuplicatePackageId);
        }
      }
      db := db.(packages := db.packages + [row]);
      result := Success(());
    }

    /** The author and tag loops: one dictionary upsert and one link row per name. */
    method InsertLinks(packageId: Guid, authors: seq<string>, tags: seq<string>)
      requires Valid()
      modifies this
      ensures Valid()
      ensures db == old(db).(authors := db.authors, packageAuthors := db.packageAuthors, tags := db.tags, packageTags := db.packageTags)
      ensures db.authors == UpsertAll(old(db.authors), authors).0 && db.tags == UpsertAll(old(db.tags), tags).0
      ensures LinksAppended(old(db.packageAuthors), db.packageAuthors, db.authors, packageId, authors)
      ensures LinksAppended(old(db.packageTags), db.packageTags, db.tags, packageId, tags)
    {
      var authorTable, authorLinks := LinkAll(db.authors, packageId, authors);
      LinksAppendedBy(db.packageAuthors, authorLinks, authorTable, packageId, authors);
      db := db.(authors := authorTable, packageAuthors := db.packageAuthors + authorLinks);
      var tagTable, tagLinks := LinkAll(db.tags, packageId, tags);
      LinksAppendedBy(db.packageTags, tagLinks, tagTable, packageId, tags);
      db := db.(tags := tagTable, packageTags := db.packageTags + tagLinks);
    }

    /** The age restriction upsert and its link row. */
    method InsertRestriction(packageId: Guid, restriction: string)
      requires Valid()
      modifies this
      ensures Valid()
      ensures var key := RestrictionKey(Age, restriction);
        db == old(db).(restrictions := Upsert(old(db.restrictions), key).0,
                       packageRestrictions := old(db.packageRestrictions) + [PackageLink(packageId, Upsert(old(db.restrictions), key).1)])
    {
      var upserted := Upsert(db.restrictions, RestrictionKey(Age, restriction));
      db := db.(restrictions := upserted.0, packageRestrictions := db.packageRestrictions + [PackageLink(packageId, upserted.1)]);
    }
  }
}
