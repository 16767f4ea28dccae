/**
 * The rows of the storage catalog: packages, the dictionaries of authors, publishers,
 * tags, languages and restrictions, and the link tables between packages and them.
 * Tables are sequences in storage order.
 */
module Catalog {
  import opened Wrappers
  import opened Documents

  /** One round of a package as the catalog stores it: its name and its themes' names. */
  datatype RoundModel = RoundModel(name: string, themeNames: seq<string>)

  /** A row of the packages table. Dates are day numbers; a missing value is `None`. */
  datatype PackageModel = PackageModel(
    id: Guid,
    name: string,
    difficulty: Option<int>,
    publisherId: Option<int>,
    createDate: Option<int>,
    languageId: int,
    originalFileName: string,
    fileName: string,
    logoUri: Option<string>,
    downloadable: bool,
    downloadCount: int,
    size: int,
    rounds: seq<RoundModel>,
    questionCount: Option<int>,
    contentTypeStatistic: map<string, int>)

  /** A row of a link table (`PackageTags`, `PackageAuthors`, `PackageRestrictions`). */
  datatype PackageLink = PackageLink(packageId: Guid, itemId: int)

  /** A row of a dictionary table: its serial id and the key it is looked up by. */
  datatype Entity<K> = Entity(id: int, key: K)

  /** A dictionary table and the next value of its id sequence. */
  datatype KeyedTable<K> = KeyedTable(rows: seq<Entity<K>>, nextId: int)

  /** The key of a restriction row: its name ("Age") and its value ("18+"). */
  datatype RestrictionKey = RestrictionKey(name: string, value: string)

  datatype Tables = Tables(
    packages: seq<PackageModel>,
    packageTags: seq<PackageLink>,
    packageAuthors: seq<PackageLink>,
    packageRestrictions: seq<PackageLink>,
    authors: KeyedTable<string>,
    publishers: KeyedTable<string>,
    tags: KeyedTable<string>,
    languages: KeyedTable<string>,
    restrictions: KeyedTable<RestrictionKey>)
}
