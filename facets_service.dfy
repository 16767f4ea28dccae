/**
 * The facet queries: the dictionary rows (publishers, authors, tags, restrictions,
 * languages) that at least one package refers to, optionally limited to the packages of one
 * language. The queries have no `ORDER BY`, so the database promises no order; the model
 * returns the rows in the dictionary's storage order.
 */
module FacetsService {
  import opened Wrappers
  import opened Sequences
  import opened Documents
  import opened Catalog

  // The `where ... Any(...)` conditions, one per query.

  function PublishedBy(packages: seq<PackageModel>): Entity<string> -> bool {
    (e: Entity<string>) => Any(packages, (p: PackageModel) => p.publisherId == Some(e.id))
  }

  function PublishedIn(packages: seq<PackageModel>, languageId: int): Entity<string> -> bool {
    (e: Entity<string>) => Any(packages, (p: PackageModel) => p.publisherId == Some(e.id) && p.languageId == languageId)
  }

  function Linked<K>(links: seq<PackageLink>): Entity<K> -> bool {
    (e: Entity<K>) => Any(links, (l: PackageLink) => l.itemId == e.id)
  }

  /** A link to the entity whose package has the language. */
  function LinkedIn<K>(links: seq<PackageLink>, packages: seq<PackageModel>, languageId: int): Entity<K> -> bool {
    (e: Entity<K>) => Any(links, (l: PackageLink) =>
      l.itemId == e.id && Any(packages, (p: PackageModel) => p.id == l.packageId && p.languageId == languageId))
  }

  function Spoken(packages: seq<PackageModel>): Entity<string> -> bool {
    (e: Entity<string>) => Any(packages, (p: PackageModel) => p.languageId == e.id)
  }

  /** `GetPublishersAsync`. */
  function Publishers(tables: Tables, languageId: Option<int>): seq<Entity<string>> {
    if languageId.Some? then Where(tables.publishers.rows, PublishedIn(tables.packages, languageId.value))
    else Where(tables.publishers.rows, PublishedBy(tables.packages))
  }

  /** `GetAuthorsAsync` and `GetTagsAsync`: the same query over their own link table. */
  function LinkedRows(rows: seq<Entity<string>>, links: seq<PackageLink>, packages: seq<PackageModel>, languageId: Option<int>): seq<Entity<string>> {
    if languageId.Some? then Where(rows, LinkedIn(links, packages, languageId.value))
    else Where(rows, Linked(links))
  }

  function Authors(tables: Tables, languageId: Option<int>): seq<Entity<string>> {
    LinkedRows(tables.authors.rows, tables.packageAuthors, tables.packages, languageId)
  }

  function Tags(tables: Tables, languageId: Option<int>): seq<Entity<string>> {
    LinkedRows(tables.tags.rows, tables.packageTags, tables.packages, languageId)
  }

  /** `GetRestrictionsAsync`: there is no language filter. */
  function Restrictions(tables: Tables): seq<Entity<RestrictionKey>> {
    Where(tables.restrictions.rows, Linked(tables.packageRestrictions))
  }

  /** `GetLanguagesAsync`. */
  function Languages(tables: Tables): seq<Entity<string>> {
    Where(tables.languages.rows, Spoken(tables.packages))
  }

  /** The package with the id has the language (`languageId` absent: any language). */
  ghost predicate InLanguage(packages: seq<PackageModel>, id: Guid, languageId: Option<int>) {
    exists p :: p in packages && p.id == id && (languageId.None? || p.languageId == languageId.value)
  }

  lemma PublishedMeaning(packages: seq<PackageModel>, languageId: Option<int>, e: Entity<string>)
    ensures (if languageId.Some? then PublishedIn(packages, languageId.value) else PublishedBy(packages))(e) <==>
      exists p :: p in packages && p.publisherId == Some(e.id) && (languageId.None? || p.languageId == languageId.value)
  {
    if languageId.Some? {
      AnyExists(packages, (p: PackageModel) => p.publisherId == Some(e.id) && p.languageId == languageId.value);
    } else {
      AnyExists(packages, (p: PackageModel) => p.publisherId == Some(e.id));
    }
  }

  lemma LinkedMeaning<K>(links: seq<PackageLink>, packages: seq<PackageModel>, languageId: Option<int>, e: Entity<K>)
    ensures (if languageId.Some? then LinkedIn(links, packages, languageId.value) else Linked(links))(e) <==>
      exists l :: l in links && l.itemId == e.id && (languageId.Some? ==> InLanguage(packages, l.packageId, languageId))
  {
    if languageId.Some? {
      AnyExists(links, (l: PackageLink) =>
        l.itemId == e.id && Any(packages, (p: PackageModel) => p.id == l.packageId && p.languageId == languageId.value));
      forall l: PackageLink
        ensures Any(packages, (p: PackageModel) => p.id == l.packageId && p.languageId == languageId.value) <==>
          InLanguage(packages, l.packageId, languageId)
      {
        AnyExists(packages, (p: PackageModel) => p.id == l.packageId && p.languageId == languageId.value);
      }
    } else {
      AnyExists(links, (l: PackageLink) => l.itemId == e.id);
    }
  }

  lemma SpokenMeaning(packages: seq<PackageModel>, e: Entity<string>)
    ensures Spoken(packages)(e) <==> exists p :: p in packages && p.languageId == e.id
  {
    AnyExists(packages, (p: PackageModel) => p.languageId == e.id);
  }

  /**
   * Publishers are exactly the dictionary rows named as the publisher of some package (of the
   * language, when one is given).
   */
  lemma PublishersExactly(tables: Tables, languageId: Option<int>)
    ensures forall e :: e in Publishers(tables, languageId) <==>
      e in tables.publishers.rows
      && exists p :: p in tables.packages && p.publisherId == Some(e.id) && (languageId.None? || p.languageId == languageId.value)
  {
    forall e: Entity<string>
      ensures (if languageId.Some? then PublishedIn(tables.packages, languageId.value) else PublishedBy(tables.packages))(e) <==>
        exists p :: p in tables.packages && p.publisherId == Some(e.id) && (languageId.None? || p.languageId == languageId.value)
    {
      PublishedMeaning(tables.packages, languageId, e);
    }
  }

  /**
   * The rows of an author or tag query are exactly the dictionary rows with a link row whose
   * package (when a language is given) has the language.
   */
  lemma LinkedRowsExactly(rows: seq<Entity<string>>, links: seq<PackageLink>, packages: seq<PackageModel>, languageId: Option<int>)
    ensures forall e :: e in LinkedRows(rows, links, packages, languageId) <==>
      e in rows
      && exists l :: l in links && l.itemId == e.id && (languageId.Some? ==> InLanguage(packages, l.packageId, languageId))
  {
    forall e: Entity<string>
      ensures (if languageId.Some? then LinkedIn(links, packages, languageId.value) else Linked(links))(e) <==>
        exists l :: l in links && l.itemId == e.id && (languageId.Some? ==> InLanguage(packages, l.packageId, languageId))
    {
      LinkedMeaning(links, packages, languageId, e);
    }
  }

  lemma AuthorsExactly(tables: Tables, languageId: Option<int>)
    ensures forall e :: e in Authors(tables, languageId) <==>
      e in tables.authors.rows
      && exists l :: l in tables.packageAuthors && l.itemId == e.id && (languageId.Some? ==> InLanguage(tables.packages, l.packageId, languageId))
  {
    LinkedRowsExactly(tables.authors.rows, tables.packageAuthors, tables.packages, languageId);
  }

  lemma TagsExactly(tables: Tables, languageId: Option<int>)
    ensures forall e :: e in Tags(tables, languageId) <==>
      e in tables.tags.rows
      && exists l :: l in tables.packageTags && l.itemId == e.id && (languageId.Some? ==> InLanguage(tables.packages, l.packageId, languageId))
  {
    LinkedRowsExactly(tables.tags.rows, tables.packageTags, tables.packages, languageId);
  }

  lemma RestrictionsExactly(tables: Tables)
    ensures forall e :: e in Restrictions(tables) <==>
      e in tables.restrictions.rows && exists l :: l in tables.packageRestrictions && l.itemId == e.id
  {
    forall e: Entity<RestrictionKey>
      ensures Linked(tables.packageRestrictions)(e) <==> exists l :: l in tables.packageRestrictions && l.itemId == e.id
    {
      LinkedMeaning(tables.packageRestrictions, tables.packages, None, e);
    }
  }

  lemma LanguagesExactly(tables: Tables)
    ensures forall e :: e in Languages(tables) <==>
      e in tables.languages.rows && exists p :: p in tables.packages && p.languageId == e.id
  {
    forall e: Entity<string>
      ensures Spoken(tables.packages)(e) <==> exists p :: p in tables.packages && p.languageId == e.id
    {
      SpokenMeaning(tables.packages, e);
    }
  }

  /** Limiting publishers, authors or tags to one language never adds a row. */
  lemma LanguageNarrows(tables: Tables, languageId: int)
    ensures forall e :: e in Publishers(tables, Some(languageId)) ==> e in Publishers(tables, None)
    ensures forall e :: e in Authors(tables, Some(languageId)) ==> e in Authors(tables, None)
    ensures forall e :: e in Tags(tables, Some(languageId)) ==> e in Tags(tables, None)
    ensures |Publishers(tables, Some(languageId))| <= |Publishers(tables, None)|
    ensures |Authors(tables, Some(languageId))| <= |Authors(tables, None)|
    ensures |Tags(tables, Some(languageId))| <= |Tags(tables, None)|
  {
    PublishersExactly(tables, Some(languageId));
    PublishersExactly(tables, None);
    AuthorsExactly(tables, Some(languageId));
    AuthorsExactly(tables, None);
    TagsExactly(tables, Some(languageId));
    TagsExactly(tables, None);
    WhereMonotone(tables.publishers.rows, PublishedIn(tables.packages, languageId), PublishedBy(tables.packages));
    WhereMonotone(tables.authors.rows, LinkedIn(tables.packageAuthors, tables.packages, languageId), Linked(tables.packageAuthors));
    WhereMonotone(tables.tags.rows, LinkedIn(tables.packageTags, tables.packages, languageId), Linked(tables.packageTags));
  }

  // ---------------------------------------------------------------------------------------
  // The component-test catalog: three authors, three publishers, five tags, three languages,
  // three restrictions and five packages, all but the last in the first language.

  function FixturePackage(id: Guid, languageId: int, publisherId: int): PackageModel {
    PackageModel(id, "name1", Some(5), Some(publisherId), Some(730119), languageId, "testuri.siq", "file-name",
      None, true, 0, 100, [RoundModel("round1", ["theme1", "theme2", "theme3"])], Some(20), map["image" := 3, "audio" := 2])
  }

  /** The five package ids are drawn fresh (`Guid.NewGuid()`), so they are pairwise distinct. */
  ghost predicate FreshIds(ids: seq<Guid>) {
    |ids| == 5 && NoDup(ids)
  }

  function FixturePackages(ids: seq<Guid>): seq<PackageModel>
    requires |ids| == 5
  {
    [FixturePackage(ids[0], 1, 1), FixturePackage(ids[1], 1, 1), FixturePackage(ids[2], 1, 1),
     FixturePackage(ids[3], 1, 2), FixturePackage(ids[4], 2, 3)]
  }

  function FixtureTagLinks(ids: seq<Guid>): seq<PackageLink>
    requires |ids| == 5
  {
    [PackageLink(ids[0], 1), PackageLink(ids[0], 2),
     PackageLink(ids[1], 1), PackageLink(ids[1], 2), PackageLink(ids[1], 3),
     PackageLink(ids[2], 1), PackageLink(ids[4], 4)]
  }

  function FixtureAuthorLinks(ids: seq<Guid>): seq<PackageLink>
    requires |ids| == 5
  {
    [PackageLink(ids[0], 1), PackageLink(ids[3], 2), PackageLink(ids[4], 3)]
  }

  function FixtureRestrictionLinks(ids: seq<Guid>): seq<PackageLink>
    requires |ids| == 5
  {
    [PackageLink(ids[0], 1), PackageLink(ids[2], 2)]
  }

  function Fixture(ids: seq<Guid>): Tables
    requires |ids| == 5
  {
    Tables(
      FixturePackages(ids), FixtureTagLinks(ids), FixtureAuthorLinks(ids), FixtureRestrictionLinks(ids),
      KeyedTable([Entity(1, "author1"), Entity(2, "author2"), Entity(3, "author3")], 4),
      KeyedTable([Entity(1, "publisher1"), Entity(2, "publisher2"), Entity(3, "publisher3")], 4),
      KeyedTable([Entity(1, "tag1"), Entity(2, "tag2"), Entity(3, "tag3"), Entity(4, "tag4"), Entity(5, "tag5")], 6),
      KeyedTable([Entity(1, "language1"), Entity(2, "language2"), Entity(3, "language3")], 4),
      KeyedTable([Entity(1, RestrictionKey("Age", "12+")), Entity(2, RestrictionKey("Age", "18+")),
                  Entity(3, RestrictionKey("Age", "custom value"))], 4))
  }

  /** A filter that keeps exactly the first `k` elements. */
  lemma {:induction false} WherePrefix<T>(s: seq<T>, p: T -> bool, k: nat)
    requires k <= |s|
    requires forall i :: 0 <= i < k ==> p(s[i])
    requires forall i :: k <= i < |s| ==> !p(s[i])
    ensures Where(s, p) == s[..k]
    decreases |s|
  {
    if s != [] {
      WherePrefix(s[1..], p, if k == 0 then 0 else k - 1);
      if k == 0 {
        assert s[..k] == [];
      } else {
        assert s[..k] == [s[0]] + s[1..][..k - 1];
      }
    }
  }

  /** The first four packages are in the first language. */
  lemma FirstFourInLanguage(ids: seq<Guid>)
    requires |ids| == 5
    ensures forall k :: 0 <= k < 4 ==> InLanguage(FixturePackages(ids), ids[k], Some(1))
  {
    var packages := FixturePackages(ids);
    forall k | 0 <= k < 4 ensures InLanguage(packages, ids[k], Some(1)) {
      assert packages[k] in packages && packages[k].id == ids[k];
    }
  }

  /** The fifth package is the only one with its id, and it is in the second language. */
  lemma FifthPackageElsewhere(ids: seq<Guid>)
    requires FreshIds(ids)
    ensures !InLanguage(FixturePackages(ids), ids[4], Some(1))
  {
    var packages := FixturePackages(ids);
    forall p | p in packages && p.id == ids[4] ensures p.languageId == 2 {
      assert ids[0] != ids[4] && ids[1] != ids[4] && ids[2] != ids[4] && ids[3] != ids[4];
    }
  }

  /** Tags 1 to 4 have a link row; tag5 has none. */
  lemma FixtureTagLinked(t: Tables, ids: seq<Guid>)
    requires |ids| == 5 && t == Fixture(ids)
    ensures forall i :: 0 <= i < |t.tags.rows| ==> (Linked<string>(t.packageTags)(t.tags.rows[i]) <==> i < 4)
  {
    var links := t.packageTags;
    forall i | 0 <= i < |t.tags.rows| ensures Linked<string>(links)(t.tags.rows[i]) <==> i < 4 {
      LinkedMeaning<string>(links, t.packages, None, t.tags.rows[i]);
      if i == 0 {
        assert links[0] in links;
      } else if i == 1 {
        assert links[1] in links;
      } else if i == 2 {
        assert links[4] in links;
      } else if i == 3 {
        assert links[6] in links;
      }
    }
  }

  /** `GetTags_Ok`: tag5 has no package, so the tags are tag1 to tag4. */
  lemma FixtureTags(ids: seq<Guid>)
    requires |ids| == 5
    ensures Tags(Fixture(ids), None) == [Entity(1, "tag1"), Entity(2, "tag2"), Entity(3, "tag3"), Entity(4, "tag4")]
  {
    var t := Fixture(ids);
    FixtureTagLinked(t, ids);
    WherePrefix(t.tags.rows, Linked<string>(t.packageTags), 4);
  }

  /** Tags 1 to 3 have a link row from a package of the first language. */
  lemma FixtureTagKeptIn(t: Tables, ids: seq<Guid>)
    requires |ids| == 5 && t == Fixture(ids)
    ensures forall i :: 0 <= i < 3 ==> LinkedIn<string>(t.packageTags, t.packages, 1)(t.tags.rows[i])
  {
    var links := t.packageTags;
    FirstFourInLanguage(ids);
    forall i | 0 <= i < 3 ensures LinkedIn<string>(links, t.packages, 1)(t.tags.rows[i]) {
      LinkedMeaning<string>(links, t.packages, Some(1), t.tags.rows[i]);
      var k := if i == 2 then 4 else i;
      assert links[k] in links && links[k].itemId == t.tags.rows[i].id;
    }
  }

  /** A row whose every link comes from one package outside the language fails the language filter. */
  lemma NotLinkedIn<K>(links: seq<PackageLink>, packages: seq<PackageModel>, e: Entity<K>, id: Guid)
    requires forall l :: l in links && l.itemId == e.id ==> l.packageId == id
    requires !InLanguage(packages, id, Some(1))
    ensures !LinkedIn<K>(links, packages, 1)(e)
  {
    LinkedMeaning(links, packages, Some(1), e);
  }

  /** Only the fifth package has a tag above 3. */
  lemma FixtureTagLinksAbove3(ids: seq<Guid>)
    requires |ids| == 5
    ensures forall l :: l in FixtureTagLinks(ids) && l.itemId > 3 ==> l.packageId == ids[4]
  {
  }

  /** Tag4's only package is in the second language, and tag5 has no package. */
  lemma FixtureTagDroppedIn(t: Tables, ids: seq<Guid>)
    requires FreshIds(ids) && t == Fixture(ids)
    ensures forall i :: 3 <= i < |t.tags.rows| ==> !LinkedIn<string>(t.packageTags, t.packages, 1)(t.tags.rows[i])
  {
    FifthPackageElsewhere(ids);
    FixtureTagLinksAbove3(ids);
    NotLinkedIn<string>(t.packageTags, t.packages, t.tags.rows[3], ids[4]);
    NotLinkedIn<string>(t.packageTags, t.packages, t.tags.rows[4], ids[4]);
  }

  /** `GetTags_WithLanguage_Ok`: the language filter drops tag4. */
  lemma FixtureTagsInLanguage(ids: seq<Guid>)
    requires FreshIds(ids)
    ensures Tags(Fixture(ids), Some(1)) == [Entity(1, "tag1"), Entity(2, "tag2"), Entity(3, "tag3")]
  {
    var t := Fixture(ids);
    FixtureTagRowsIn(t, ids);
  }

  lemma FixtureTagRowsIn(t: Tables, ids: seq<Guid>)
    requires FreshIds(ids) && t == Fixture(ids)
    ensures Where(t.tags.rows, LinkedIn<string>(t.packageTags, t.packages, 1)) == t.tags.rows[..3]
  {
    FixtureTagKeptIn(t, ids);
    FixtureTagDroppedIn(t, ids);
    WherePrefix(t.tags.rows, LinkedIn<string>(t.packageTags, t.packages, 1), 3);
  }

  /** Every author has a link row. */
  lemma FixtureAuthorLinked(t: Tables, ids: seq<Guid>)
    requires |ids| == 5 && t == Fixture(ids)
    ensures forall i :: 0 <= i < |t.authors.rows| ==> Linked<string>(t.packageAuthors)(t.authors.rows[i])
  {
    var links := t.packageAuthors;
    forall i | 0 <= i < |t.authors.rows| ensures Linked<string>(links)(t.authors.rows[i]) {
      LinkedMeaning<string>(links, t.packages, None, t.authors.rows[i]);
      assert links[i] in links;
    }
  }

  /** `GetAuthors_Ok`: all three authors. */
  lemma FixtureAuthors(ids: seq<Guid>)
    requires |ids| == 5
    ensures Authors(Fixture(ids), None) == [Entity(1, "author1"), Entity(2, "author2"), Entity(3, "author3")]
  {
    var t := Fixture(ids);
    FixtureAuthorLinked(t, ids);
    WherePrefix(t.authors.rows, Linked<string>(t.packageAuthors), 3);
  }

  /** Authors 1 and 2 have packages in the first language; author3's only package is in the second. */
  lemma FixtureAuthorLinkedIn(t: Tables, ids: seq<Guid>)
    requires FreshIds(ids) && t == Fixture(ids)
    ensures forall i :: 0 <= i < |t.authors.rows| ==>
      (LinkedIn<string>(t.packageAuthors, t.packages, 1)(t.authors.rows[i]) <==> i < 2)
  {
    var links := t.packageAuthors;
    FirstFourInLanguage(ids);
    FifthPackageElsewhere(ids);
    forall i | 0 <= i < |t.authors.rows| ensures LinkedIn<string>(links, t.packages, 1)(t.authors.rows[i]) <==> i < 2 {
      LinkedMeaning<string>(links, t.packages, Some(1), t.authors.rows[i]);
      if i < 2 {
        assert links[i] in links;
      } else {
        forall l | l in links && l.itemId == t.authors.rows[i].id ensures l.packageId == ids[4] {
        }
      }
    }
  }

  /** `GetAuthors_WithLanguage_Ok`: the language filter drops author3. */
  lemma FixtureAuthorsInLanguage(ids: seq<Guid>)
    requires FreshIds(ids)
    ensures Authors(Fixture(ids), Some(1)) == [Entity(1, "author1"), Entity(2, "author2")]
  {
    var t := Fixture(ids);
    FixtureAuthorLinkedIn(t, ids);
    WherePrefix(t.authors.rows, LinkedIn<string>(t.packageAuthors, t.packages, 1), 2);
  }

  /** Every publisher publishes a package. */
  lemma FixturePublishedBy(t: Tables, ids: seq<Guid>)
    requires |ids| == 5 && t == Fixture(ids)
    ensures forall i :: 0 <= i < |t.publishers.rows| ==> PublishedBy(t.packages)(t.publishers.rows[i])
  {
    var packages := t.packages;
    forall i | 0 <= i < |t.publishers.rows| ensures PublishedBy(packages)(t.publishers.rows[i]) {
      PublishedMeaning(packages, None, t.publishers.rows[i]);
      var k := if i == 0 then 0 else i + 2;
      assert packages[k] in packages && packages[k].publisherId == Some(t.publishers.rows[i].id);
    }
  }

  /** `GetPublishers_Ok`: all three publishers. */
  lemma FixturePublishers(ids: seq<Guid>)
    requires |ids| == 5
    ensures Publishers(Fixture(ids), None) == [Entity(1, "publisher1"), Entity(2, "publisher2"), Entity(3, "publisher3")]
  {
    var t := Fixture(ids);
    FixturePublishedBy(t, ids);
    WherePrefix(t.publishers.rows, PublishedBy(t.packages), 3);
  }

  /** Publishers 1 and 2 publish a package of the first language; publisher3 only one of the second. */
  lemma FixturePublishedIn(t: Tables, ids: seq<Guid>)
    requires |ids| == 5 && t == Fixture(ids)
    ensures forall i :: 0 <= i < 2 ==> PublishedIn(t.packages, 1)(t.publishers.rows[i])
    ensures !PublishedIn(t.packages, 1)(t.publishers.rows[2])
  {
    var packages := t.packages;
    forall i | 0 <= i < 2 ensures PublishedIn(packages, 1)(t.publishers.rows[i]) {
      PublishedMeaning(packages, Some(1), t.publishers.rows[i]);
      var k := if i == 0 then 0 else 3;
      assert packages[k] in packages && packages[k].publisherId == Some(t.publishers.rows[i].id);
    }
    PublishedMeaning(packages, Some(1), t.publishers.rows[2]);
    forall p | p in packages ensures !(p.publisherId == Some(3) && p.languageId == 1) {
    }
  }

  /** `GetPublishers_WithLanguage_Ok`: publisher3's only package is in the second language. */
  lemma FixturePublishersInLanguage(ids: seq<Guid>)
    requires |ids| == 5
    ensures Publishers(Fixture(ids), Some(1)) == [Entity(1, "publisher1"), Entity(2, "publisher2")]
  {
    var t := Fixture(ids);
    FixturePublishedIn(t, ids);
    WherePrefix(t.publishers.rows, PublishedIn(t.packages, 1), 2);
  }

  /** Restrictions 12+ and 18+ have a link row; the custom value has none. */
  lemma FixtureRestrictionLinked(t: Tables, ids: seq<Guid>)
    requires |ids| == 5 && t == Fixture(ids)
    ensures forall i :: 0 <= i < |t.restrictions.rows| ==>
      (Linked<RestrictionKey>(t.packageRestrictions)(t.restrictions.rows[i]) <==> i < 2)
  {
    var links := t.packageRestrictions;
    forall i | 0 <= i < |t.restrictions.rows|
      ensures Linked<RestrictionKey>(links)(t.restrictions.rows[i]) <==> i < 2
    {
      LinkedMeaning<RestrictionKey>(links, t.packages, None, t.restrictions.rows[i]);
      if i == 0 {
        assert links[0] in links;
      } else if i == 1 {
        assert links[1] in links;
      }
    }
  }

  /** `GetRestriction_Ok`: no package carries the custom restriction value. */
  lemma FixtureRestrictions(ids: seq<Guid>)
    requires |ids| == 5
    ensures Restrictions(Fixture(ids)) == [Entity(1, RestrictionKey("Age", "12+")), Entity(2, RestrictionKey("Age", "18+"))]
  {
    var t := Fixture(ids);
    FixtureRestrictionLinked(t, ids);
    WherePrefix(t.restrictions.rows, Linked<RestrictionKey>(t.packageRestrictions), 2);
  }

  /** Languages 1 and 2 have a package; language3 has none. */
  lemma FixtureSpoken(t: Tables, ids: seq<Guid>)
    requires |ids| == 5 && t == Fixture(ids)
    ensures forall i :: 0 <= i < |t.languages.rows| ==> (Spoken(t.packages)(t.languages.rows[i]) <==> i < 2)
  {
    forall i | 0 <= i < |t.languages.rows| ensures Spoken(t.packages)(t.languages.rows[i]) <==> i < 2 {
      SpokenMeaning(t.packages, t.languages.rows[i]);
      if i == 0 {
        assert t.packages[0] in t.packages;
      } else if i == 1 {
        assert t.packages[4] in t.packages;
      }
    }
  }

  /** `GetLanguages_Ok`: no package is in language3. */
  lemma FixtureLanguages(ids: seq<Guid>)
    requires |ids| == 5
    ensures Languages(Fixture(ids)) == [Entity(1, "language1"), Entity(2, "language2")]
  {
    var t := Fixture(ids);
    FixtureSpoken(t, ids);
    WherePrefix(t.languages.rows, Spoken(t.packages), 2);
  }
}
