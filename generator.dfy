/**
 * The random package generator. It composes a new package of `RoundCount` standard rounds
 * and one final round from themes drawn at random from the catalog's packages: each slot
 * draws a package, a round of it and a theme of that round, rejects a theme whose name was
 * already used, re-prices the theme's questions by position, resolves or inherits its
 * authors and sources, copies its media and logs where it came from. Source documents are
 * opened once, cached, and all released at the end.
 *
 * `Random.Shared` is an injected oracle `random`: the k-th draw of `Next(n)` is
 * `random(k) % n`. The SIPackages calls are the functions a `SourceDocument` carries.
 */
module RandomPackageGenerator {
  import opened Wrappers
  import opened Clr
  import opened Sequences
  import opened Documents
  import opened Catalog

  /** The marker the generated package's name, author and comment start with. */
  const RandomIndicator: string := "@{random}"

  /** The retry budget shared by every slot of one generation. */
  const InitialRetryBudget: int := 10

  /** What the catalog knows of a source package: its id and its rounds with their theme names. */
  datatype PackageMetadata = PackageMetadata(id: Guid, rounds: seq<RoundModel>)

  datatype GeneratorParameters = GeneratorParameters(
    roundCount: nat,
    commonThemeCount: nat,
    finalThemeCount: nat,
    baseQuestionPrice: int)

  /** `package => package.Rounds[..^1]` for standard rounds, `package => package.Rounds[^1..]` for the final one. */
  datatype RoundSelector = AllButLast | LastOnly

  /**
   * The length of the slice a selector takes of `n` rounds. Both ranges are invalid on an
   * empty array, where slicing throws: `None`.
   */
  function SliceLength(selector: RoundSelector, n: nat): Option<nat> {
    if n == 0 then None else if selector == AllButLast then Some(n - 1) else Some(1)
  }

  /** An exception that escapes an extraction: an index out of range, or a source package that cannot be opened. */
  datatype Fault = IndexOutOfRange | SourceUnavailable(id: Guid)

  /** The draws for one slot: an index out of range, an empty slice of rounds, or the three indices. */
  datatype Sample = Broken | NoRounds | Sampled(packageIndex: nat, roundIndex: nat, themeIndex: nat)

  /** The outcome of one extraction: the theme is placed, the slot is rejected (`false`), or an exception escapes. */
  datatype Attempt = Placed | Rejected | Threw(fault: Fault)

  /** `Random.Shared.Next(n)` answered by the `draw`-th value of the oracle: a value in [0, n), and 0 when n is 0. */
  function Pick(random: nat -> nat, draw: nat, n: nat): (k: nat)
    ensures n == 0 ==> k == 0
    ensures n > 0 ==> k < n
  {
    if n == 0 then 0 else random(draw) % n
  }

  // ----- Provenance log and comment buffer -----

  /** Where a placed theme came from, and the round it was placed in. */
  datatype Provenance = Provenance(
    packageIndex: nat,
    id: Guid,
    roundIndex: nat,
    themeIndex: nat,
    name: string,
    targetRound: nat)

  /** The comment entry `id:roundIndex:themeIndex;` of one extraction. */
  function Entry(p: Provenance): string {
    p.id.text + ":" + NatToString(p.roundIndex) + ":" + NatToString(p.themeIndex) + ";"
  }

  /** The entries of a log, in extraction order. */
  function FormatLog(log: seq<Provenance>): string {
    if log == [] then "" else FormatLog(log[..|log| - 1]) + Entry(log[|log| - 1])
  }

  /** The comment text after the extractions of `log`: the marker, then one entry per extraction. */
  function Comments(log: seq<Provenance>): string {
    RandomIndicator + FormatLog(log)
  }

  /** What the comment `StringBuilder` holds after the extractions of `log`: its initial text and one appended entry each. */
  function Chunks(log: seq<Provenance>): seq<string> {
    [RandomIndicator] + seq(|log|, k requires 0 <= k < |log| => Entry(log[k]))
  }

  /** `StringBuilder.ToString()`: the appended chunks, in order. */
  function Concat(chunks: seq<string>): string {
    if chunks == [] then "" else Concat(chunks[..|chunks| - 1]) + chunks[|chunks| - 1]
  }

  /** The text of the comment buffer is the marker followed by the log's entries. */
  lemma {:induction false} ChunksText(log: seq<Provenance>)
    ensures Concat(Chunks(log)) == Comments(log)
    decreases |log|
  {
    var chunks := Chunks(log);
    if log == [] {
      assert chunks == [RandomIndicator];
      assert chunks[..0] == [];
      assert Concat(chunks) == Concat([]) + RandomIndicator;
    } else {
      var front := log[..|log| - 1];
      ChunksText(front);
      ChunksFront(log);
      assert Concat(chunks) == Concat(Chunks(front)) + Entry(log[|log| - 1]);
      assert FormatLog(log) == FormatLog(front) + Entry(log[|log| - 1]);
    }
  }

  /** Dropping the last extraction drops the last chunk. */
  lemma ChunksFront(log: seq<Provenance>)
    requires log != []
    ensures Chunks(log)[..|Chunks(log)| - 1] == Chunks(log[..|log| - 1])
    ensures Chunks(log)[|Chunks(log)| - 1] == Entry(log[|log| - 1])
  {
  }

  /** The number of occurrences of `c` in `s`. */
  function Occurrences(s: string, c: char): nat {
    if s == [] then 0 else Occurrences(s[..|s| - 1], c) + (if s[|s| - 1] == c then 1 else 0)
  }

  lemma {:induction false} OccurrencesAppend(a: string, b: string, c: char)
    ensures Occurrences(a + b, c) == Occurrences(a, c) + Occurrences(b, c)
    decreases |b|
  {
    if b == [] {
      assert a + b == a;
    } else {
      assert (a + b)[..|a + b| - 1] == a + b[..|b| - 1];
      OccurrencesAppend(a, b[..|b| - 1], c);
    }
  }

  lemma {:induction false} OccurrencesAbsent(s: string, c: char)
    requires forall i :: 0 <= i < |s| ==> s[i] != c
    ensures Occurrences(s, c) == 0
    decreases |s|
  {
    if s != [] {
      OccurrencesAbsent(s[..|s| - 1], c);
    }
  }

  /** An entry holds exactly one `;` when the id text holds none (a GUID's text is hex digits and hyphens). */
  lemma EntryTerminator(p: Provenance)
    requires forall i :: 0 <= i < |p.id.text| ==> p.id.text[i] != ';'
    ensures Occurrences(Entry(p), ';') == 1
  {
    var r := NatToString(p.roundIndex);
    var t := NatToString(p.themeIndex);
    OccurrencesAbsent(p.id.text, ';');
    OccurrencesAbsent(r, ';');
    OccurrencesAbsent(t, ';');
    OccurrencesAppend(p.id.text, ":", ';');
    OccurrencesAppend(p.id.text + ":", r, ';');
    OccurrencesAppend(p.id.text + ":" + r, ":", ';');
    OccurrencesAppend(p.id.text + ":" + r + ":", t, ';');
    OccurrencesAppend(p.id.text + ":" + r + ":" + t, ";", ';');
    assert Occurrences(":", ';') == 0 by { assert ":"[..0] == ""; }
    assert Occurrences(";", ';') == 1 by { assert ";"[..0] == ""; }
  }

  /** The comment buffer holds one `;`-terminated entry per successful extraction. */
  lemma {:induction false} OneEntryPerExtraction(log: seq<Provenance>)
    requires forall k, i :: 0 <= k < |log| && 0 <= i < |log[k].id.text| ==> log[k].id.text[i] != ';'
    ensures Occurrences(FormatLog(log), ';') == |log|
    decreases |log|
  {
    if log != [] {
      OneEntryPerExtraction(log[..|log| - 1]);
      EntryTerminator(log[|log| - 1]);
      OccurrencesAppend(FormatLog(log[..|log| - 1]), Entry(log[|log| - 1]), ';');
    }
  }

  /** No two placed themes share a metadata name. */
  ghost predicate DistinctNames(log: seq<Provenance>) {
    forall i, j :: 0 <= i < j < |log| ==> log[i].name != log[j].name
  }

  function NameSet(log: seq<Provenance>): set<string> {
    set p | p in log :: p.name
  }

  /** `p` names a theme that the metadata list really holds. */
  ghost predicate Drawn(packages: seq<PackageMetadata>, p: Provenance) {
    p.packageIndex < |packages|
    && packages[p.packageIndex].id == p.id
    && p.roundIndex < |packages[p.packageIndex].rounds|
    && p.themeIndex < |packages[p.packageIndex].rounds[p.roundIndex].themeNames|
    && packages[p.packageIndex].rounds[p.roundIndex].themeNames[p.themeIndex] == p.name
  }

  /** The log names real themes of cached packages, no two with the same name. */
  ghost predicate LogValid(packages: seq<PackageMetadata>, log: seq<Provenance>, cached: set<Guid>) {
    DistinctNames(log) && forall p :: p in log ==> Drawn(packages, p) && p.id in cached
  }

  /** Logging a theme with a new name keeps the log valid and adds exactly that name. */
  lemma LogAppend(packages: seq<PackageMetadata>, log: seq<Provenance>, cached: set<Guid>, p: Provenance)
    requires LogValid(packages, log, cached) && Drawn(packages, p) && p.id in cached && p.name !in NameSet(log)
    ensures LogValid(packages, log + [p], cached)
    ensures NameSet(log + [p]) == NameSet(log) + {p.name}
    ensures Chunks(log + [p]) == Chunks(log) + [Entry(p)]
    ensures Targets(log + [p]) == Targets(log) + [p.targetRound]
  {
    var after := log + [p];
    assert after[..|log|] == log;
    forall i, j | 0 <= i < j < |after|
      ensures after[i].name != after[j].name
    {
      if j == |log| {
        assert after[i] in log;
      }
    }
  }

  /** Caching one more document keeps a valid log valid. */
  lemma LogCacheGrows(packages: seq<PackageMetadata>, log: seq<Provenance>, cached: set<Guid>, more: set<Guid>)
    requires LogValid(packages, log, cached) && cached <= more
    ensures LogValid(packages, log, more)
  {
  }

  // ----- Placement of themes in the target rounds -----

  /** The round of every theme in `rounds`, round by round and theme by theme. */
  function PlacedRounds(rounds: seq<Round>): seq<nat> {
    if rounds == [] then []
    else PlacedRounds(rounds[..|rounds| - 1]) + seq(|rounds[|rounds| - 1].themes|, _ => |rounds| - 1)
  }

  /** The target round of every logged extraction, in extraction order. */
  function Targets(log: seq<Provenance>): seq<nat> {
    seq(|log|, k requires 0 <= k < |log| => log[k].targetRound)
  }

  function AppendTheme(rounds: seq<Round>, r: nat, theme: Theme): seq<Round>
    requires r < |rounds|
  {
    rounds[r := rounds[r].(themes := rounds[r].themes + [theme])]
  }

  /** Appending a theme to the last round places one more theme in that round, after all others. */
  lemma PlacedRoundsAppendTheme(rounds: seq<Round>, theme: Theme)
    requires rounds != []
    ensures PlacedRounds(AppendTheme(rounds, |rounds| - 1, theme)) == PlacedRounds(rounds) + [|rounds| - 1]
  {
    var n := |rounds| - 1;
    var after := AppendTheme(rounds, n, theme);
    assert after[..n] == rounds[..n];
    assert seq(|after[n].themes|, _ => n) == seq(|rounds[n].themes|, _ => n) + [n];
  }

  /** Appending a theme to the last round changes that round's theme list alone, by one theme. */
  lemma AppendThemeLast(rounds: seq<Round>, theme: Theme)
    requires rounds != []
    ensures var after := AppendTheme(rounds, |rounds| - 1, theme);
      |after| == |rounds| && (forall r :: 0 <= r < |rounds| - 1 ==> after[r] == rounds[r])
      && after[|rounds| - 1].(themes := []) == rounds[|rounds| - 1].(themes := [])
      && |after[|rounds| - 1].themes| == |rounds[|rounds| - 1].themes| + 1
  {
  }

  /** Appending an empty round places no theme. */
  lemma PlacedRoundsAppendRound(rounds: seq<Round>, round: Round)
    requires round.themes == []
    ensures PlacedRounds(rounds + [round]) == PlacedRounds(rounds)
  {
    assert (rounds + [round])[..|rounds|] == rounds;
  }

  // ----- Prices -----

  /** The price of question `position` of a theme placed in round `round`, in unchecked 32-bit arithmetic. */
  function QuestionPrice(round: nat, position: nat, base: int): int {
    Int32((round + 1) * (position + 1) * base)
  }

  /** Without overflow, question i of round r costs `(r+1)*(i+1)*BaseQuestionPrice`. */
  lemma QuestionPriceExact(round: nat, position: nat, base: int)
    requires -0x8000_0000 <= (round + 1) * (position + 1) * base < 0x8000_0000
    ensures QuestionPrice(round, position, base) == (round + 1) * (position + 1) * base
  {
    Int32Fits((round + 1) * (position + 1) * base);
  }

  /** Every question of the target package is priced by its round and its position in its theme. */
  ghost predicate PricedByPosition(rounds: seq<Round>, base: int) {
    forall r, t, q ::
      0 <= r < |rounds| && 0 <= t < |rounds[r].themes| && 0 <= q < |rounds[r].themes[t].questions|
      ==> rounds[r].themes[t].questions[q].price == QuestionPrice(r, q, base)
  }

  lemma PricedAppendTheme(rounds: seq<Round>, r: nat, theme: Theme, base: int)
    requires r < |rounds| && PricedByPosition(rounds, base)
    requires forall q :: 0 <= q < |theme.questions| ==> theme.questions[q].price == QuestionPrice(r, q, base)
    ensures PricedByPosition(AppendTheme(rounds, r, theme), base)
  {
    var after := AppendTheme(rounds, r, theme);
    forall r', t, q | 0 <= r' < |after| && 0 <= t < |after[r'].themes| && 0 <= q < |after[r'].themes[t].questions|
      ensures after[r'].themes[t].questions[q].price == QuestionPrice(r', q, base)
    {
      if r' == r && t == |rounds[r].themes| {
        assert after[r'].themes[t] == theme;
      } else {
        assert after[r'].themes[t] == rounds[r'].themes[t];
      }
    }
  }

  // ----- Authors and sources -----

  /** One attribution entry after `GetLink`: `link + tail` when the entry is a link, the entry itself otherwise. */
  function ResolvedEntry(source: SourceDocument, kind: Attribution, entry: string): string {
    match source.getLink(kind, entry)
    case Some(link) => link.target + link.tail
    case None => entry
  }

  function ResolvedList(source: SourceDocument, kind: Attribution, entries: seq<string>): seq<string> {
    seq(|entries|, i requires 0 <= i < |entries| => ResolvedEntry(source, kind, entries[i]))
  }

  /**
   * `InheritAuthors(document, question)` / `InheritSources(document, question)`: each entry
   * that is a link is replaced by what it refers to; nothing is added or removed.
   */
  method ResolveLinks(source: SourceDocument, kind: Attribution, entries: seq<string>) returns (list: seq<string>)
    ensures |list| == |entries|
    ensures forall i :: 0 <= i < |entries| ==> list[i] == ResolvedEntry(source, kind, entries[i])
  {
    list := entries;
    if |list| <= 0 {
      return;
    }
    for i := 0 to |list|
      invariant |list| == |entries|
      invariant forall k :: 0 <= k < i ==> list[k] == ResolvedEntry(source, kind, entries[k])
      invariant forall k :: i <= k < |list| ==> list[k] == entries[k]
    {
      var link := source.getLink(kind, list[i]);
      if link.Some? {
        list := list[i := link.value.target + link.value.tail];
      }
    }
  }

  /** The theme's list after inheritance: its own links resolved, or else the round's or package's list made real. */
  function InheritedAttribution(source: SourceDocument, round: Round, theme: Theme, kind: Attribution): seq<string> {
    var own := theme.info.Get(kind);
    if own != [] then ResolvedList(source, kind, own)
    else
      var fallback := if round.info.Get(kind) != [] then round.info.Get(kind) else source.package.info.Get(kind);
      if fallback != [] then source.realAttribution(kind, fallback) else []
  }

  /**
   * `InheritAuthors(document, round, theme)` / `InheritSources(document, round, theme)`: the
   * new author (source) list of a drawn theme.
   */
  method InheritThemeAttribution(source: SourceDocument, round: Round, theme: Theme, kind: Attribution)
    returns (list: seq<string>)
    ensures list == InheritedAttribution(source, round, theme, kind)
    ensures theme.info.Get(kind) != [] ==>
      |list| == |theme.info.Get(kind)|
      && forall i :: 0 <= i < |list| ==> list[i] == ResolvedEntry(source, kind, theme.info.Get(kind)[i])
    ensures theme.info.Get(kind) == [] && round.info.Get(kind) != [] ==>
      list == source.realAttribution(kind, round.info.Get(kind))
    ensures theme.info.Get(kind) == [] && round.info.Get(kind) == [] && source.package.info.Get(kind) != [] ==>
      list == source.realAttribution(kind, source.package.info.Get(kind))
    ensures theme.info.Get(kind) == [] && round.info.Get(kind) == [] && source.package.info.Get(kind) == [] ==>
      list == []
  {
    var own := theme.info.Get(kind);
    if |own| == 0 {
      var inherited := round.info.Get(kind);
      if |inherited| == 0 {
        inherited := source.package.info.Get(kind);
      }
      list := own;
      if |inherited| > 0 {
        var realList := source.realAttribution(kind, inherited);
        list := [];
        for k := 0 to |realList|
          invariant list == realList[..k]
        {
          list := list + [realList[k]];
        }
        assert list == realList;
      }
    } else {
      list := ResolveLinks(source, kind, own);
    }
  }

  // ----- Media -----

  /** The file that migrating `item` adds to the collection for `kind`: only a non-text item of that type with a stream. */
  function Copied(source: SourceDocument, item: ContentItem, kind: string): seq<MediaFile> {
    if item.kind == kind && item.kind != TextContent then
      match source.tryGetMedia(item)
      case Some(MediaInfo(Some(data))) => [MediaFile(item.value, data)]
      case _ => []
    else []
  }

  /** The files that migrating `items` adds to the collection for `kind`, in order. */
  function CopiedFiles(source: SourceDocument, items: seq<ContentItem>, kind: string): seq<MediaFile> {
    if items == [] then []
    else CopiedFiles(source, items[..|items| - 1], kind) + Copied(source, items[|items| - 1], kind)
  }

  lemma {:induction false} CopiedFilesAppend(source: SourceDocument, a: seq<ContentItem>, b: seq<ContentItem>, kind: string)
    ensures CopiedFiles(source, a + b, kind) == CopiedFiles(source, a, kind) + CopiedFiles(source, b, kind)
    decreases |b|
  {
    if b == [] {
      assert a + b == a;
    } else {
      assert (a + b)[..|a + b| - 1] == a + b[..|b| - 1];
      CopiedFilesAppend(source, a, b[..|b| - 1], kind);
    }
  }

  /** Text items are never copied: the collection for the text type gains nothing. */
  lemma {:induction false} CopiedFilesNeverText(source: SourceDocument, items: seq<ContentItem>)
    ensures CopiedFiles(source, items, TextContent) == []
    decreases |items|
  {
    if items != [] {
      CopiedFilesNeverText(source, items[..|items| - 1]);
    }
  }

  /** Every copied file is the stream of an item of that type, stored under the item's value. */
  lemma {:induction false} CopiedFilesOrigin(source: SourceDocument, items: seq<ContentItem>, kind: string)
    ensures forall f :: f in CopiedFiles(source, items, kind) ==>
      exists i :: (0 <= i < |items| && items[i].kind == kind && kind != TextContent
        && f.name == items[i].value && source.tryGetMedia(items[i]) == Some(MediaInfo(Some(f.data))))
    decreases |items|
  {
    if items != [] {
      var front := items[..|items| - 1];
      CopiedFilesOrigin(source, front, kind);
      forall f | f in CopiedFiles(source, items, kind)
        ensures exists i :: (0 <= i < |items| && items[i].kind == kind && kind != TextContent
          && f.name == items[i].value && source.tryGetMedia(items[i]) == Some(MediaInfo(Some(f.data))))
      {
        if f in CopiedFiles(source, front, kind) {
          var i :| 0 <= i < |front| && front[i].kind == kind && kind != TextContent
            && f.name == front[i].value && source.tryGetMedia(front[i]) == Some(MediaInfo(Some(f.data)));
          assert items[i] == front[i];
        } else {
          assert f in Copied(source, items[|items| - 1], kind);
        }
      }
    }
  }

  /**
   * `migrated` is `collections` after copying the media of `items`: the same collections,
   * each extended by the files of its type.
   */
  ghost predicate MigratedFrom(
    collections: map<string, seq<MediaFile>>, migrated: map<string, seq<MediaFile>>,
    source: SourceDocument, items: seq<ContentItem>)
  {
    migrated.Keys == collections.Keys
    && forall k :: k in collections ==> migrated[k] == collections[k] + CopiedFiles(source, items, k)
  }

  /** Migrating `a` and then `b` is migrating `a + b`. */
  lemma MigratedTransitive(
    collections: map<string, seq<MediaFile>>, middle: map<string, seq<MediaFile>>, migrated: map<string, seq<MediaFile>>,
    source: SourceDocument, a: seq<ContentItem>, b: seq<ContentItem>)
    requires MigratedFrom(collections, middle, source, a) && MigratedFrom(middle, migrated, source, b)
    ensures MigratedFrom(collections, migrated, source, a + b)
  {
    forall k | k in collections
      ensures migrated[k] == collections[k] + CopiedFiles(source, a + b, k)
    {
      CopiedFilesAppend(source, a, b, k);
    }
  }

  /**
   * `InheritContentAsync`: copies each non-text item that has a stream into the target
   * collection of its type, when that collection exists.
   */
  method InheritContent(collections: map<string, seq<MediaFile>>, source: SourceDocument, items: seq<ContentItem>)
    returns (result: map<string, seq<MediaFile>>)
    ensures result.Keys == collections.Keys
    ensures forall k :: k in collections ==> result[k] == collections[k] + CopiedFiles(source, items, k)
  {
    result := collections;
    assert MigratedFrom(collections, result, source, items[..0]);
    for n := 0 to |items|
      invariant MigratedFrom(collections, result, source, items[..n])
    {
      var next := InheritItem(result, source, items[n]);
      MigratedTransitive(collections, result, next, source, items[..n], [items[n]]);
      assert items[..n] + [items[n]] == items[..n + 1];
      result := next;
    }
    assert items[..|items|] == items;
  }

  /** One iteration of `InheritContentAsync`: the item's stream, if any, joins the collection of its type. */
  method InheritItem(collections: map<string, seq<MediaFile>>, source: SourceDocument, item: ContentItem)
    returns (result: map<string, seq<MediaFile>>)
    ensures MigratedFrom(collections, result, source, [item])
  {
    result := collections;
    if item.kind != TextContent {
      var media := source.tryGetMedia(item);
      if media.Some? && media.value.stream.Some? {
        if item.kind in result {
          result := result[item.kind := result[item.kind] + [MediaFile(item.value, media.value.stream.value)]];
        }
      }
    }
    assert [item][..0] == [];
  }

  /** All content items of `questions`, question by question. */
  function ContentOf(questions: seq<Question>): seq<ContentItem> {
    if questions == [] then [] else ContentOf(questions[..|questions| - 1]) + questions[|questions| - 1].content
  }

  /** A drawn question after the rewrite: new price, its own author and source links resolved. */
  function RewrittenQuestion(source: SourceDocument, question: Question, price: int): Question {
    question.(
      price := price,
      info := question.info.(
        authors := ResolvedList(source, Authors, question.info.authors),
        sources := ResolvedList(source, Sources, question.info.sources)))
  }

  /** A drawn theme as it is placed in round `targetRound`. */
  function RewrittenTheme(source: SourceDocument, round: Round, theme: Theme, targetRound: nat, base: int): Theme {
    theme.(
      info := theme.info.(
        authors := InheritedAttribution(source, round, theme, Authors),
        sources := InheritedAttribution(source, round, theme, Sources)),
      questions := seq(|theme.questions|, i requires 0 <= i < |theme.questions| =>
        RewrittenQuestion(source, theme.questions[i], QuestionPrice(targetRound, i, base))))
  }

  /** One step of the question loop: the price is set, then the question's own authors and sources are resolved. */
  method RewriteQuestion(source: SourceDocument, question: Question, price: int) returns (rewritten: Question)
    ensures rewritten.price == price && rewritten.content == question.content
    ensures |rewritten.info.authors| == |question.info.authors| && |rewritten.info.sources| == |question.info.sources|
    ensures rewritten == RewrittenQuestion(source, question, price)
  {
    rewritten := question.(price := price);
    var authors := ResolveLinks(source, Authors, rewritten.info.authors);
    rewritten := rewritten.(info := rewritten.info.(authors := authors));
    var sources := ResolveLinks(source, Sources, rewritten.info.sources);
    rewritten := rewritten.(info := rewritten.info.(sources := sources));
  }

  /**
   * The question loop of `ExtractThemeAsync`: question i gets the price for its position,
   * its links resolved, and its media copied into `collections`.
   */
  method RewriteQuestions(
    source: SourceDocument, questions: seq<Question>, targetRound: nat, base: int,
    collections: map<string, seq<MediaFile>>)
    returns (rewritten: seq<Question>, migrated: map<string, seq<MediaFile>>)
    ensures |rewritten| == |questions|
    ensures forall i :: 0 <= i < |questions| ==>
      rewritten[i] == RewrittenQuestion(source, questions[i], QuestionPrice(targetRound, i, base))
    ensures MigratedFrom(collections, migrated, source, ContentOf(questions))
  {
    rewritten := questions;
    migrated := collections;
    assert MigratedFrom(collections, migrated, source, ContentOf(questions[..0])) by {
      assert questions[..0] == [];
    }
    for i := 0 to |questions|
      invariant |rewritten| == |questions|
      invariant forall k :: 0 <= k < i ==>
        rewritten[k] == RewrittenQuestion(source, questions[k], QuestionPrice(targetRound, k, base))
      invariant forall k :: i <= k < |questions| ==> rewritten[k] == questions[k]
      invariant MigratedFrom(collections, migrated, source, ContentOf(questions[..i]))
    {
      var question := RewriteQuestion(source, rewritten[i], Int32((targetRound + 1) * (i + 1) * base));
      var before := migrated;
      migrated := InheritContent(migrated, source, question.content);
      rewritten := rewritten[i := question];

      assert questions[..i + 1][..i] == questions[..i];
      MigratedTransitive(collections, before, migrated, source, ContentOf(questions[..i]), questions[i].content);
    }
    assert questions[..|questions|] == questions;
  }

  /**
   * The body of `ExtractThemeAsync` between drawing a theme and placing it: the theme's own
   * authors and sources are inherited, then its questions are rewritten and their media copied.
   */
  method RewriteTheme(
    source: SourceDocument, round: Round, theme: Theme, targetRound: nat, base: int,
    collections: map<string, seq<MediaFile>>)
    returns (placed: Theme, migrated: map<string, seq<MediaFile>>)
    ensures placed.name == theme.name && placed.info.comments == theme.info.comments
    ensures |placed.questions| == |theme.questions|
    ensures forall q :: 0 <= q < |placed.questions| ==> placed.questions[q].price == QuestionPrice(targetRound, q, base)
    ensures placed == RewrittenTheme(source, round, theme, targetRound, base)
    ensures MigratedFrom(collections, migrated, source, ContentOf(theme.questions))
  {
    var authors := InheritThemeAttribution(source, round, theme, Authors);
    var sources := InheritThemeAttribution(source, round, theme, Sources);
    var questions;
    questions, migrated := RewriteQuestions(source, theme.questions, targetRound, base, collections);
    placed := theme.(info := theme.info.(authors := authors, sources := sources), questions := questions);
  }

  // ----- One generation -----

  /**
   * Round `r` of the target package is a `kind` round named `r + 1` with an empty `Info`,
   * whose placed and skipped slots add up to the `requested` theme count.
   */
  ghost predicate RoundShaped(rounds: seq<Round>, skipped: seq<nat>, r: nat, kind: RoundKind, requested: nat) {
    r < |rounds| && r < |skipped|
    && rounds[r].kind == kind && rounds[r].name == NatToString(r + 1) && rounds[r].info == EmptyInfo
    && |rounds[r].themes| + skipped[r] == requested
  }

  /** Rounds and skip counts that are unchanged below `n` keep their shape below `n`. */
  lemma ShapeKept(
    rounds: seq<Round>, skipped: seq<nat>, rounds': seq<Round>, skipped': seq<nat>, n: nat, kind: RoundKind, requested: nat)
    requires n <= |rounds| && n <= |skipped| && n <= |rounds'| && n <= |skipped'|
    requires forall r :: 0 <= r < n ==> RoundShaped(rounds, skipped, r, kind, requested)
    requires forall r :: 0 <= r < n ==> rounds'[r] == rounds[r] && skipped'[r] == skipped[r]
    ensures forall r :: 0 <= r < n ==> RoundShaped(rounds', skipped', r, kind, requested)
  {
    forall r | 0 <= r < n
      ensures RoundShaped(rounds', skipped', r, kind, requested)
    {
      assert RoundShaped(rounds, skipped, r, kind, requested);
      assert rounds'[r] == rounds[r] && skipped'[r] == skipped[r];
    }
  }

  /** The state of one `GeneratePackageAsync` call. */
  class Generation {
    const packages: seq<PackageMetadata>
    const parameters: GeneratorParameters
    /** `provider.GetPackageAsync(id)`: the opened document, or `None` when opening throws. */
    const provider: Guid -> Option<SourceDocument>
    const random: nat -> nat

    /** How many values have been drawn from `random`. */
    var draws: nat
    var allThemeNames: set<string>
    var retryCounter: int
    var packageCache: map<Guid, SourceDocument>
    var doc: TargetDocument
    /** The chunks appended to the comment `StringBuilder`; its text is their concatenation. */
    var packageComments: seq<string>

    /** The successful extractions, in order. */
    ghost var log: seq<Provenance>
    /** The source packages opened, in order. */
    ghost var openings: seq<Guid>
    /** The cached documents released, in order. */
    ghost var disposed: seq<Guid>
    /** How many failed extractions retried their slot. */
    ghost var retried: nat
    /** Per target round, how many of its slots were given up. */
    ghost var skipped: seq<nat>

    /** Every package is opened at most once, and the cache holds exactly the opened ones. */
    ghost predicate CacheValid()
      reads this`openings, this`packageCache
    {
      NoDup(openings)
      && (forall id :: id in openings <==> id in packageCache)
      && (forall id :: id in packageCache ==> provider(id) == Some(packageCache[id]))
    }

    /** Everything `Valid` says except how the seen-name set relates to the log. */
    ghost predicate Consistent()
      reads this`openings, this`packageCache, this`log, this`packageComments, this`doc
    {
      CacheValid()
      && LogValid(packages, log, packageCache.Keys)
      && packageComments == Chunks(log)
      && PricedByPosition(doc.package.rounds, parameters.baseQuestionPrice)
      && PlacedRounds(doc.package.rounds) == Targets(log)
    }

    /** The seen names are the names of the placed themes, which are pairwise distinct. */
    ghost predicate Valid()
      reads this`openings, this`packageCache, this`log, this`packageComments, this`doc, this`allThemeNames
    {
      Consistent() && allThemeNames == NameSet(log)
    }

    /**
     * The budget: while it lasts (`retryCounter >= -1`) every failure retried its slot and
     * none was skipped; once it is spent exactly 11 failures were retried.
     */
    ghost predicate RetryAccounting()
      reads this`retryCounter, this`retried, this`skipped
    {
      retryCounter <= InitialRetryBudget
      && (retryCounter >= -1 ==>
            retried == InitialRetryBudget - retryCounter
            && forall r :: 0 <= r < |skipped| ==> skipped[r] == 0)
      && (retryCounter < -1 ==> retried == InitialRetryBudget + 1)
    }

    /** The shape of a finished package, relative to the document `before` it was filled. */
    ghost predicate Composed(before: Package)
      reads this`doc, this`skipped, this`retried, this`packageComments
    {
      var rounds := doc.package.rounds;
      var n := parameters.roundCount;
      |rounds| == n + 1 && |skipped| == n + 1
      && (forall r :: 0 <= r < n ==> RoundShaped(rounds, skipped, r, Standard, parameters.commonThemeCount))
      && RoundShaped(rounds, skipped, n, Final, parameters.finalThemeCount)
      && retried <= InitialRetryBudget + 1
      && ((exists r :: 0 <= r <= n && skipped[r] > 0) ==> retried == InitialRetryBudget + 1)
      && doc.package == before.(rounds := rounds, info := before.info.(comments := before.info.comments + Concat(packageComments)))
    }

    /** Lines 41-47: the empty set, the budget, the empty cache, the new document and the comment buffer. */
    constructor (
      packages: seq<PackageMetadata>, parameters: GeneratorParameters,
      provider: Guid -> Option<SourceDocument>, random: nat -> nat, created: TargetDocument)
      requires created.package.rounds == []
      ensures Valid() && RetryAccounting()
      ensures this.packages == packages && this.parameters == parameters
      ensures this.provider == provider && this.random == random
      ensures doc == created && draws == 0 && allThemeNames == {} && packageCache == map[]
      ensures retryCounter == InitialRetryBudget && packageComments == [RandomIndicator]
      ensures log == [] && openings == [] && disposed == [] && retried == 0 && skipped == []
    {
      this.packages := packages;
      this.parameters := parameters;
      this.provider := provider;
      this.random := random;
      draws := 0;
      allThemeNames := {};
      retryCounter := InitialRetryBudget;
      packageCache := map[];
      doc := created;
      packageComments := [RandomIndicator];
      log := [];
      openings := [];
      disposed := [];
      retried := 0;
      skipped := [];
    }

    /** `Random.Shared.Next(n)`. */
    method NextRandom(n: nat) returns (k: nat)
      modifies this`draws
      ensures draws == old(draws) + 1
      ensures k == Pick(random, old(draws), n)
    {
      k := Pick(random, draws, n);
      draws := draws + 1;
    }

    /** The cache lookup of `ExtractThemeAsync`: a cached document, or else the provider's, which joins the cache. */
    method Open(id: Guid) returns (source: Option<SourceDocument>)
      requires CacheValid()
      modifies this`packageCache, this`openings
      ensures CacheValid() && old(packageCache).Keys <= packageCache.Keys && old(openings) <= openings
      ensures source == provider(id)
      ensures source.Some? ==> id in packageCache && packageCache[id] == source.value
      ensures id in old(packageCache) || source.None? ==> packageCache == old(packageCache) && openings == old(openings)
      ensures id !in old(packageCache) && source.Some? ==>
        packageCache == old(packageCache)[id := source.value] && openings == old(openings) + [id]
    {
      if id in packageCache {
        source := Some(packageCache[id]);
      } else {
        source := provider(id);
        if source.Some? {
          packageCache := packageCache[id := source.value];
          openings := openings + [id];
        }
      }
    }

    /** The indices that the three draws from `first` on pick for a slot filled through `selector`. */
    ghost predicate SampledAt(first: nat, selector: RoundSelector, packageIndex: nat, roundIndex: nat, themeIndex: nat) {
      packageIndex == Pick(random, first, |packages|) && packageIndex < |packages|
      && SliceLength(selector, |packages[packageIndex].rounds|).Some?
      && SliceLength(selector, |packages[packageIndex].rounds|).value > 0
      && roundIndex == Pick(random, first + 1, SliceLength(selector, |packages[packageIndex].rounds|).value)
      && roundIndex < |packages[packageIndex].rounds|
      && themeIndex == Pick(random, first + 2, |packages[packageIndex].rounds[roundIndex].themeNames|)
      && themeIndex < |packages[packageIndex].rounds[roundIndex].themeNames|
    }

    /**
     * What the draws of one slot yield when they start at draw `first`: a package, a round
     * index below the length of the selected slice, and a theme of the round at that index of
     * the full round list. An index past the end (an empty package list, a round without
     * theme names) and a slice of an empty round array throw.
     */
    function DrawAt(first: nat, selector: RoundSelector): (sample: Sample)
      ensures sample.Sampled? <==> exists i, r, t :: SampledAt(first, selector, i, r, t)
      ensures sample.Sampled? ==> SampledAt(first, selector, sample.packageIndex, sample.roundIndex, sample.themeIndex)
      ensures sample.NoRounds? <==>
        |packages| > 0 && SliceLength(selector, |packages[Pick(random, first, |packages|)].rounds|) == Some(0)
      ensures |packages| == 0 ==> sample.Broken?
    {
      var i := Pick(random, first, |packages|);
      if i >= |packages| then Broken
      else
        var slice := SliceLength(selector, |packages[i].rounds|);
        if slice.None? then Broken
        else if slice.value == 0 then NoRounds
        else
          var r := Pick(random, first + 1, slice.value);
          var t := Pick(random, first + 2, |packages[i].rounds[r].themeNames|);
          if t < |packages[i].rounds[r].themeNames| then
            assert SampledAt(first, selector, i, r, t);
            Sampled(i, r, t)
          else Broken
    }

    /** How many values the draws of one slot take: one when the package draw ends the slot, three otherwise. */
    function DrawCount(first: nat, selector: RoundSelector): nat {
      var i := Pick(random, first, |packages|);
      if i < |packages| && SliceLength(selector, |packages[i].rounds|).Some?
         && SliceLength(selector, |packages[i].rounds|).value > 0
      then 3 else 1
    }

    /** The draws of `ExtractThemeAsync` (lines 130-142). */
    method DrawTheme(selector: RoundSelector) returns (sample: Sample)
      modifies this`draws
      ensures sample == DrawAt(old(draws), selector)
      ensures draws == old(draws) + DrawCount(old(draws), selector)
      ensures sample.Sampled? && selector == LastOnly ==> sample.roundIndex == 0
      ensures sample.Sampled? && selector == AllButLast ==>
        sample.roundIndex < |packages[sample.packageIndex].rounds| - 1
    {
      var packageIndex := NextRandom(|packages|);
      if packageIndex >= |packages| {
        return Broken;
      }
      var package := packages[packageIndex];
      var sliceLength := SliceLength(selector, |package.rounds|);
      if sliceLength.None? {
        return Broken;
      }
      if sliceLength.value == 0 {
        return NoRounds;
      }
      var roundIndex := NextRandom(sliceLength.value);
      var roundMeta := package.rounds[roundIndex];
      var themeIndex := NextRandom(|roundMeta.themeNames|);
      if themeIndex >= |roundMeta.themeNames| {
        return Broken;
      }
      sample := Sampled(packageIndex, roundIndex, themeIndex);
    }

    /** The drawn theme can be taken from its document: the provider opens it and it has the round and the theme. */
    ghost predicate Fits(p: Provenance) {
      provider(p.id).Some?
      && p.roundIndex < |provider(p.id).value.package.rounds|
      && p.themeIndex < |provider(p.id).value.package.rounds[p.roundIndex].themes|
    }

    /** The drawn theme `p` as it is placed: taken from its document and rewritten for its target round. */
    ghost function PlacedTheme(p: Provenance): Theme
      requires Fits(p)
    {
      var source := provider(p.id).value;
      var round := source.package.rounds[p.roundIndex];
      RewrittenTheme(source, round, round.themes[p.themeIndex], p.targetRound, parameters.baseQuestionPrice)
    }

    /** The content items of the drawn theme's questions, whose media the extraction copies. */
    ghost function DrawnContent(p: Provenance): seq<ContentItem>
      requires Fits(p)
    {
      ContentOf(provider(p.id).value.package.rounds[p.roundIndex].themes[p.themeIndex].questions)
    }

    /** How an extraction of the drawn theme `p` ends once its name is known to be new. */
    ghost function AdoptOutcome(p: Provenance): Attempt {
      if Fits(p) then Placed
      else if provider(p.id).None? then Threw(SourceUnavailable(p.id))
      else Threw(IndexOutOfRange)
    }

    /**
     * How an extraction ends, given its draws, the theme `p` they name and the names seen
     * before: an index past the end throws, an empty slice or a seen name rejects the slot,
     * and a new name is adopted.
     */
    ghost function ExtractOutcome(sample: Sample, p: Provenance, seen: set<string>): Attempt {
      if sample.Broken? then Threw(IndexOutOfRange)
      else if sample.NoRounds? || p.name in seen then Rejected
      else AdoptOutcome(p)
    }

    /**
     * A listed package that no extraction can throw on: it has a round, each of its rounds
     * a theme name, and the provider opens it to a document holding at least the rounds and
     * themes the metadata lists.
     */
    ghost predicate PackageSound(m: PackageMetadata) {
      |m.rounds| > 0
      && (forall r :: 0 <= r < |m.rounds| ==> |m.rounds[r].themeNames| > 0)
      && provider(m.id).Some?
      && |m.rounds| <= |provider(m.id).value.package.rounds|
      && forall r :: 0 <= r < |m.rounds| ==> |m.rounds[r].themeNames| <= |provider(m.id).value.package.rounds[r].themes|
    }

    /** The package list is not empty and every listed package is sound. */
    ghost predicate SourcesSound() {
      |packages| > 0 && forall i :: 0 <= i < |packages| ==> PackageSound(packages[i])
    }

    /** Over sound sources the draws never run past an end. */
    lemma SoundDraw(first: nat, selector: RoundSelector)
      ensures DrawAt(first, selector).Broken? ==> !SourcesSound()
    {
      if SourcesSound() {
        var i := Pick(random, first, |packages|);
        assert PackageSound(packages[i]);
        var slice := SliceLength(selector, |packages[i].rounds|);
        if slice.value > 0 {
          var r := Pick(random, first + 1, slice.value);
          assert |packages[i].rounds[r].themeNames| > 0;
        }
      }
    }

    /** Over sound sources a drawn theme is always found in its document. */
    lemma SoundFits(p: Provenance)
      requires Drawn(packages, p)
      ensures SourcesSound() ==> Fits(p)
    {
      if SourcesSound() {
        assert PackageSound(packages[p.packageIndex]);
      }
    }

    /** `ExtractThemeAsync` for a slot of the last round of the target document. */
    method ExtractTheme(targetRound: nat, selector: RoundSelector) returns (attempt: Attempt, p: Provenance)
      requires Valid()
      requires targetRound == |doc.package.rounds| - 1
      modifies this`draws, this`allThemeNames, this`packageCache, this`openings, this`doc, this`packageComments, this`log
      ensures CacheValid() && old(openings) <= openings
      ensures draws == old(draws) + DrawCount(old(draws), selector)
      ensures var sample := DrawAt(old(draws), selector);
        sample.Sampled? ==>
          Drawn(packages, p) && p.targetRound == targetRound && p.packageIndex == sample.packageIndex
          && p.roundIndex == sample.roundIndex && p.themeIndex == sample.themeIndex
      ensures attempt == ExtractOutcome(DrawAt(old(draws), selector), p, old(allThemeNames))
      ensures SourcesSound() ==> !attempt.Threw?
      ensures !attempt.Threw? ==> Valid()
      ensures attempt.Rejected? ==>
        allThemeNames == old(allThemeNames) && packageCache == old(packageCache) && doc == old(doc)
        && packageComments == old(packageComments) && log == old(log) && openings == old(openings)
      ensures attempt.Placed? ==>
        log == old(log) + [p] && allThemeNames == old(allThemeNames) + {p.name}
        && p.name !in old(allThemeNames)
        && (selector == LastOnly ==> p.roundIndex == 0)
        && packageComments == old(packageComments) + [Entry(p)]
        && (openings == old(openings) || (p.id !in old(packageCache) && openings == old(openings) + [p.id]))
        && p.id in packageCache && Fits(p)
        && doc.package == old(doc.package).(rounds := AppendTheme(old(doc.package.rounds), p.targetRound, PlacedTheme(p)))
        && MigratedFrom(old(doc.collections), doc.collections, provider(p.id).value, DrawnContent(p))
    {
      p := Provenance(0, Guid(""), 0, 0, "", targetRound);
      ghost var first := draws;
      var sample := DrawTheme(selector);
      if sample.Broken? {
        SoundDraw(first, selector);
        return Threw(IndexOutOfRange), p;
      } else if sample.NoRounds? {
        return Rejected, p;
      }
      var package := packages[sample.packageIndex];
      var roundIndex, themeIndex := sample.roundIndex, sample.themeIndex;
      var themeName := package.rounds[roundIndex].themeNames[themeIndex];
      p := Provenance(sample.packageIndex, package.id, roundIndex, themeIndex, themeName, targetRound);
      if themeName in allThemeNames {
        return Rejected, p;
      }
      allThemeNames := allThemeNames + {themeName};
      SoundFits(p);
      attempt := Adopt(p);
    }

    /**
     * The rest of `ExtractThemeAsync` once a theme with a new name is drawn: the source
     * document is taken from the cache or opened, and the theme is rewritten and placed.
     */
    method Adopt(p: Provenance) returns (attempt: Attempt)
      requires Consistent() && allThemeNames == NameSet(log) + {p.name} && p.name !in NameSet(log)
      requires Drawn(packages, p) && p.targetRound == |doc.package.rounds| - 1
      modifies this`packageCache, this`openings, this`doc, this`packageComments, this`log
      ensures CacheValid() && old(openings) <= openings
      ensures attempt == AdoptOutcome(p)
      ensures attempt.Placed? ==>
        Valid() && log == old(log) + [p]
        && packageComments == old(packageComments) + [Entry(p)]
        && (openings == old(openings) || (p.id !in old(packageCache) && openings == old(openings) + [p.id]))
        && p.id in packageCache && Fits(p)
        && doc.package == old(doc.package).(rounds := AppendTheme(old(doc.package.rounds), p.targetRound, PlacedTheme(p)))
        && MigratedFrom(old(doc.collections), doc.collections, provider(p.id).value, DrawnContent(p))
    {
      ghost var cachedBefore := packageCache.Keys;
      var loaded := Open(p.id);
      if loaded.None? {
        return Threw(SourceUnavailable(p.id));
      }
      LogCacheGrows(packages, log, cachedBefore, packageCache.Keys);
      attempt := Transplant(p, loaded.value);
    }

    /** The theme is taken from the opened document, rewritten for its slot and placed. */
    method Transplant(p: Provenance, source: SourceDocument) returns (attempt: Attempt)
      requires Consistent() && allThemeNames == NameSet(log) + {p.name} && p.name !in NameSet(log)
      requires Drawn(packages, p) && p.targetRound == |doc.package.rounds| - 1
      requires p.id in packageCache && packageCache[p.id] == source
      modifies this`doc, this`packageComments, this`log
      ensures attempt ==
        if p.roundIndex < |source.package.rounds| && p.themeIndex < |source.package.rounds[p.roundIndex].themes|
        then Placed else Threw(IndexOutOfRange)
      ensures attempt.Placed? ==>
        Valid() && log == old(log) + [p]
        && packageComments == old(packageComments) + [Entry(p)]
        && Fits(p)
        && doc.package == old(doc.package).(rounds := AppendTheme(old(doc.package.rounds), p.targetRound, PlacedTheme(p)))
        && MigratedFrom(old(doc.collections), doc.collections, source, DrawnContent(p))
    {
      if p.roundIndex >= |source.package.rounds| {
        return Threw(IndexOutOfRange);
      }
      var round := source.package.rounds[p.roundIndex];
      if p.themeIndex >= |round.themes| {
        return Threw(IndexOutOfRange);
      }
      var theme := round.themes[p.themeIndex];
      var placed, collections := RewriteTheme(source, round, theme, p.targetRound, parameters.baseQuestionPrice, doc.collections);
      Place(p, placed, collections);
      attempt := Placed;
    }

    /** The end of a successful extraction: the theme joins the last round, the copied media replace the collections and the comment buffer gets its entry. */
    method Place(p: Provenance, theme: Theme, collections: map<string, seq<MediaFile>>)
      requires Consistent() && allThemeNames == NameSet(log) + {p.name} && p.name !in NameSet(log)
      requires p.targetRound == |doc.package.rounds| - 1
      requires Drawn(packages, p) && p.id in packageCache
      requires forall q :: 0 <= q < |theme.questions| ==>
        theme.questions[q].price == QuestionPrice(p.targetRound, q, parameters.baseQuestionPrice)
      modifies this`doc, this`packageComments, this`log
      ensures Valid()
      ensures doc == old(doc).(package := old(doc.package).(rounds := AppendTheme(old(doc.package.rounds), p.targetRound, theme)),
        collections := collections)
      ensures packageComments == old(packageComments) + [Entry(p)]
      ensures log == old(log) + [p]
    {
      var rounds := AppendTheme(doc.package.rounds, p.targetRound, theme);
      assert PricedByPosition(rounds, parameters.baseQuestionPrice) by {
        PricedAppendTheme(doc.package.rounds, p.targetRound, theme, parameters.baseQuestionPrice);
      }
      assert LogValid(packages, log + [p], packageCache.Keys)
        && NameSet(log + [p]) == allThemeNames
        && Chunks(log + [p]) == Chunks(log) + [Entry(p)]
        && PlacedRounds(rounds) == Targets(log + [p]) by {
        LogAppend(packages, log, packageCache.Keys, p);
        PlacedRoundsAppendTheme(doc.package.rounds, theme);
      }
      doc := doc.(package := doc.package.(rounds := rounds), collections := collections);
      packageComments := packageComments + [Entry(p)];
      log := log + [p];
    }

    /** `doc.Package.Rounds.Add(new Round { Type = kind, Name = (n + 1).ToString() })` for the n-th round. */
    method AddRound(kind: RoundKind)
      requires Valid() && RetryAccounting() && |skipped| == |doc.package.rounds|
      modifies this`doc, this`skipped
      ensures Valid() && RetryAccounting()
      ensures doc == old(doc).(package := old(doc.package).(rounds := old(doc.package.rounds)
        + [Round(NatToString(|old(doc.package.rounds)| + 1), kind, EmptyInfo, [])]))
      ensures skipped == old(skipped) + [0]
    {
      var round := Round(NatToString(|doc.package.rounds| + 1), kind, EmptyInfo, []);
      PlacedRoundsAppendRound(doc.package.rounds, round);
      doc := doc.(package := doc.package.(rounds := doc.package.rounds + [round]));
      skipped := skipped + [0];
    }

    /** One extraction as the slot loop sees it: the last round gains a theme exactly when one is placed. */
    method FillSlot(selector: RoundSelector) returns (attempt: Attempt)
      requires Valid() && doc.package.rounds != []
      modifies this
      ensures CacheValid() && old(openings) <= openings
      ensures retryCounter == old(retryCounter) && retried == old(retried)
      ensures skipped == old(skipped) && disposed == old(disposed)
      ensures SourcesSound() ==> !attempt.Threw?
      ensures !attempt.Threw? ==>
        Valid()
        && |doc.package.rounds| == |old(doc.package.rounds)|
        && doc.package == old(doc.package).(rounds := doc.package.rounds)
        && (forall r :: 0 <= r < |doc.package.rounds| - 1 ==> doc.package.rounds[r] == old(doc.package.rounds[r]))
        && doc.package.rounds[|doc.package.rounds| - 1].(themes := [])
           == old(doc.package.rounds[|doc.package.rounds| - 1]).(themes := [])
        && |doc.package.rounds[|doc.package.rounds| - 1].themes|
           == |old(doc.package.rounds[|doc.package.rounds| - 1]).themes| + (if attempt.Placed? then 1 else 0)
    {
      ghost var rounds := doc.package.rounds;
      var p;
      attempt, p := ExtractTheme(|doc.package.rounds| - 1, selector);
      if attempt.Placed? {
        AppendThemeLast(rounds, PlacedTheme(p));
      }
    }

    /** `retryCounter-- >= 0`: whether a rejected slot is retried; a slot that is not retried is skipped. */
    method SpendRetry(ghost target: nat) returns (retry: bool)
      requires RetryAccounting() && target < |skipped|
      modifies this`retryCounter, this`retried, this`skipped
      ensures RetryAccounting()
      ensures retry == (old(retryCounter) >= 0) && retryCounter == old(retryCounter) - 1
      ensures retry ==> skipped == old(skipped)
      ensures !retry ==> skipped == old(skipped)[target := old(skipped)[target] + 1]
    {
      retry := retryCounter >= 0;
      retryCounter := retryCounter - 1;
      if retry {
        retried := retried + 1;
      } else {
        skipped := skipped[target := skipped[target] + 1];
      }
    }

    /**
     * One slot loop of `GeneratePackageAsync` (lines 55-76 for a standard round, 81-102 for
     * the final one): `count` slots of the last round, where a rejected extraction retries its
     * slot while the shared budget lasts and is skipped afterwards.
     */
    method FillRound(count: nat, selector: RoundSelector) returns (fault: Option<Fault>)
      requires Valid() && RetryAccounting()
      requires |doc.package.rounds| == |skipped| > 0
      requires doc.package.rounds[|skipped| - 1].themes == [] && skipped[|skipped| - 1] == 0
      modifies this
      ensures CacheValid() && disposed == old(disposed) && old(openings) <= openings
      ensures SourcesSound() ==> fault.None?
      ensures fault.None? ==>
        Valid() && RetryAccounting()
        && |doc.package.rounds| == |skipped| == |old(skipped)|
        && doc.package == old(doc.package).(rounds := doc.package.rounds)
        && (forall r :: 0 <= r < |skipped| - 1 ==> doc.package.rounds[r] == old(doc.package.rounds[r]) && skipped[r] == old(skipped[r]))
        && doc.package.rounds[|skipped| - 1].(themes := []) == old(doc.package.rounds[|skipped| - 1])
        && |doc.package.rounds[|skipped| - 1].themes| + skipped[|skipped| - 1] == count
    {
      var target := |doc.package.rounds| - 1;
      var j: int := 0;
      while j < count
        invariant 0 <= j <= count
        invariant Valid() && RetryAccounting()
        invariant CacheValid() && disposed == old(disposed) && old(openings) <= openings
        invariant |doc.package.rounds| == |skipped| == target + 1
        invariant doc.package == old(doc.package).(rounds := doc.package.rounds)
        invariant forall r :: 0 <= r < target ==> doc.package.rounds[r] == old(doc.package.rounds[r]) && skipped[r] == old(skipped[r])
        invariant doc.package.rounds[target].(themes := []) == old(doc.package.rounds[target])
        invariant |doc.package.rounds[target].themes| + skipped[target] == j
        decreases if retryCounter >= 0 then retryCounter + 1 else 0, count - j
      {
        var attempt := FillSlot(selector);
        if attempt.Threw? {
          return Some(attempt.fault);
        }
        if attempt.Rejected? {
          var retry := SpendRetry(target);
          if retry {
            j := j - 1;
          }
        }
        j := j + 1;
      }
      fault := None;
    }

    /** The loop over the standard rounds of `GeneratePackageAsync` (lines 51-77). */
    method AddStandardRounds() returns (fault: Option<Fault>)
      requires Valid() && RetryAccounting()
      requires doc.package.rounds == [] && skipped == []
      modifies this
      ensures CacheValid() && disposed == old(disposed) && old(openings) <= openings
      ensures SourcesSound() ==> fault.None?
      ensures fault.None? ==>
        Valid() && RetryAccounting()
        && |doc.package.rounds| == |skipped| == parameters.roundCount
        && doc.package == old(doc.package).(rounds := doc.package.rounds)
        && forall r :: 0 <= r < parameters.roundCount ==>
             RoundShaped(doc.package.rounds, skipped, r, Standard, parameters.commonThemeCount)
    {
      for i := 0 to parameters.roundCount
        invariant Valid() && RetryAccounting()
        invariant CacheValid() && disposed == old(disposed) && old(openings) <= openings
        invariant |doc.package.rounds| == |skipped| == i
        invariant doc.package == old(doc.package).(rounds := doc.package.rounds)
        invariant forall r :: 0 <= r < i ==> RoundShaped(doc.package.rounds, skipped, r, Standard, parameters.commonThemeCount)
      {
        ghost var rounds, skips := doc.package.rounds, skipped;
        AddRound(Standard);
        fault := FillRound(parameters.commonThemeCount, AllButLast);
        if fault.Some? {
          return;
        }
        ShapeKept(rounds, skips, doc.package.rounds, skipped, i, Standard, parameters.commonThemeCount);
      }
      fault := None;
    }

    /**
     * The `try` block of `GeneratePackageAsync` (lines 51-105): `RoundCount` standard rounds,
     * the final round, then the comment buffer appended to the package comment.
     */
    method Compose() returns (fault: Option<Fault>)
      requires Valid() && RetryAccounting()
      requires doc.package.rounds == [] && skipped == []
      modifies this
      ensures CacheValid() && disposed == old(disposed) && old(openings) <= openings
      ensures SourcesSound() ==> fault.None?
      ensures fault.None? ==> Valid() && Composed(old(doc.package))
    {
      fault := AddStandardRounds();
      if fault.Some? {
        return;
      }
      ghost var rounds, skips := doc.package.rounds, skipped;
      AddRound(Final);
      fault := FillRound(parameters.finalThemeCount, LastOnly);
      if fault.Some? {
        return;
      }
      ShapeKept(rounds, skips, doc.package.rounds, skipped, parameters.roundCount, Standard, parameters.commonThemeCount);
      doc := doc.(package := doc.package.(info := doc.package.info.(comments := doc.package.info.comments + Concat(packageComments))));
      RetryBound();
    }

    /** A skipped slot means the whole budget was spent: 11 slots were retried. */
    lemma RetryBound()
      requires RetryAccounting()
      ensures retried <= InitialRetryBudget + 1
      ensures (exists r :: 0 <= r < |skipped| && skipped[r] > 0) ==> retried == InitialRetryBudget + 1
    {
    }

    /** The `finally` block: every cached document is released once, in an order the model leaves open. */
    method DisposeCache()
      requires CacheValid() && disposed == []
      modifies this`disposed
      ensures NoDup(disposed) && (forall id :: id in disposed <==> id in packageCache)
      ensures |disposed| == |openings|
    {
      var pending := packageCache.Keys;
      while pending != {}
        invariant pending <= packageCache.Keys
        invariant NoDup(disposed)
        invariant forall id :: id in disposed <==> id in packageCache && id !in pending
        decreases pending
      {
        var id :| id in pending;
        disposed := disposed + [id];
        pending := pending - {id};
      }
      SameElementsSameLength(disposed, openings);
    }

    /**
     * `GeneratePackageAsync`: the composed document, or the exception that escaped; the
     * cache is released on both paths.
     */
    method Run() returns (result: Result<TargetDocument, Fault>)
      requires Valid() && RetryAccounting()
      requires doc.package.rounds == [] && skipped == [] && disposed == []
      modifies this
      ensures NoDup(openings) && NoDup(disposed) && (forall id :: id in disposed <==> id in openings)
      ensures |disposed| == |openings|
      ensures SourcesSound() ==> result.Success?
      ensures result.Success? ==> result.value == doc && Valid() && Composed(old(doc.package))
      ensures result.Success? ==> doc.package.info.comments == old(doc.package.info.comments) + Comments(log)
    {
      var fault := Compose();
      DisposeCache();
      if fault.Some? {
        result := Failure(fault.value);
      } else {
        ChunksText(log);
        result := Success(doc);
      }
    }
  }
}
