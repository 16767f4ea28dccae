/**
 * `PackageIndexer.IndexPackage`: one walk over an uploaded package (rounds, themes,
 * questions, content items) that collects what the catalog stores about it: a summary of
 * round and theme names, the question count and a histogram of the non-text content types.
 */
module PackageIndexer {
  import opened Wrappers
  import opened Clr
  import opened Documents
  import opened Catalog

  /** What the indexer reports for a package. `createDate` is the day of indexing. */
  datatype PackageInfo = PackageInfo(
    name: string,
    difficulty: int,
    publisher: Option<string>,
    createDate: int,
    language: Option<string>,
    rounds: seq<RoundModel>,
    questionCount: int,
    contentTypeStatistic: map<string, int>,
    authors: seq<string>,
    tags: seq<string>,
    restriction: string)

  /** `round.Themes.Select(t => t.Name)`. */
  function ThemeNames(round: Round): (names: seq<string>)
    ensures |names| == |round.themes|
    ensures forall j :: 0 <= j < |names| ==> names[j] == round.themes[j].name
  {
    seq(|round.themes|, j requires 0 <= j < |round.themes| => round.themes[j].name)
  }

  /** The questions of a list of themes, theme after theme. */
  function ThemesQuestions(themes: seq<Theme>): seq<Question>
    decreases |themes|
  {
    if themes == [] then []
    else ThemesQuestions(themes[..|themes| - 1]) + themes[|themes| - 1].questions
  }

  /** The questions of a list of rounds, round after round. */
  function RoundsQuestions(rounds: seq<Round>): seq<Question>
    decreases |rounds|
  {
    if rounds == [] then []
    else RoundsQuestions(rounds[..|rounds| - 1]) + ThemesQuestions(rounds[|rounds| - 1].themes)
  }

  /** The content items of a list of questions, question after question. */
  function QuestionsContent(questions: seq<Question>): seq<ContentItem>
    decreases |questions|
  {
    if questions == [] then []
    else QuestionsContent(questions[..|questions| - 1]) + questions[|questions| - 1].content
  }

  /** Every question of the package. */
  function AllQuestions(package: Package): seq<Question> {
    RoundsQuestions(package.rounds)
  }

  /** Every content item of the package. */
  function AllContent(package: Package): seq<ContentItem> {
    QuestionsContent(AllQuestions(package))
  }

  /** The number of items of the given type. */
  function Count(items: seq<ContentItem>, kind: string): nat
    decreases |items|
  {
    if items == [] then 0
    else Count(items[..|items| - 1], kind) + (if items[|items| - 1].kind == kind then 1 else 0)
  }

  /** The number of items that are not text. */
  function NonTextCount(items: seq<ContentItem>): nat
    decreases |items|
  {
    if items == [] then 0
    else NonTextCount(items[..|items| - 1]) + (if items[|items| - 1].kind != TextContent then 1 else 0)
  }

  /** The content types that occur. */
  function Kinds(items: seq<ContentItem>): set<string> {
    set x | x in items :: x.kind
  }

  /**
   * The content-type statistic: every non-text type that occurs, with the number of its
   * items as a `short` (the counter is incremented as a `short`, so it wraps past 32767).
   */
  function Histogram(items: seq<ContentItem>): map<string, int> {
    map kind | kind in Kinds(items) && kind != TextContent :: Int16(Count(items, kind))
  }

  /** No type occurs 32768 times or more, so no counter wraps. */
  ghost predicate NoOverflow(items: seq<ContentItem>) {
    forall kind :: Count(items, kind) < 0x8000
  }

  lemma {:induction false} QuestionsContentAppend(a: seq<Question>, b: seq<Question>)
    ensures QuestionsContent(a + b) == QuestionsContent(a) + QuestionsContent(b)
    decreases |b|
  {
    if b != [] {
      var b' := b[..|b| - 1];
      QuestionsContentAppend(a, b');
      assert (a + b)[..|a + b| - 1] == a + b';
      assert (a + b)[|a + b| - 1] == b[|b| - 1];
      assert QuestionsContent(a + b) == QuestionsContent(a + b') + b[|b| - 1].content;
      assert QuestionsContent(b) == QuestionsContent(b') + b[|b| - 1].content;
    } else {
      assert a + b == a;
    }
  }

  lemma {:induction false} CountAbsent(items: seq<ContentItem>, kind: string)
    requires kind !in Kinds(items)
    ensures Count(items, kind) == 0
    decreases |items|
  {
    if items != [] {
      var s := items[..|items| - 1];
      assert Kinds(s) <= Kinds(items);
      CountAbsent(s, kind);
    }
  }

  lemma {:induction false} CountPositive(items: seq<ContentItem>, kind: string)
    requires kind in Kinds(items)
    ensures Count(items, kind) >= 1
    decreases |items|
  {
    var s := items[..|items| - 1];
    if items[|items| - 1].kind != kind {
      assert Kinds(items) == Kinds(s) + {items[|items| - 1].kind};
      CountPositive(s, kind);
    }
  }

  /** Counting one more item: the step the indexer's inner loop takes. */
  lemma HistogramStep(s: seq<ContentItem>, x: ContentItem)
    ensures x.kind == TextContent ==> Histogram(s + [x]) == Histogram(s)
    ensures x.kind != TextContent ==>
      Histogram(s + [x]) ==
      Histogram(s)[x.kind := Int16((if x.kind in Histogram(s) then Histogram(s)[x.kind] else 0) + 1)]
  {
    var t := s + [x];
    assert t[..|t| - 1] == s;
    assert Kinds(t) == Kinds(s) + {x.kind};
    if x.kind != TextContent && x.kind !in Histogram(s) {
      CountAbsent(s, x.kind);
    } else if x.kind != TextContent {
      Int16Increment(Count(s, x.kind));
    }
  }

  /**
   * With no wrap-around the statistic is exact: text is never a key, every key is a type
   * that occurs, and its value is the number of its items, at least 1.
   */
  lemma HistogramExact(items: seq<ContentItem>)
    requires NoOverflow(items)
    ensures TextContent !in Histogram(items)
    ensures forall kind :: kind in Histogram(items) <==> kind != TextContent && exists x :: x in items && x.kind == kind
    ensures forall kind :: kind in Histogram(items) ==> Histogram(items)[kind] == Count(items, kind) >= 1
  {
    forall kind | kind in Histogram(items)
      ensures Histogram(items)[kind] == Count(items, kind) >= 1
    {
      CountPositive(items, kind);
      Int16Fits(Count(items, kind));
    }
  }

  /** The sum of the values of `m` over `keys`. */
  ghost function ValueSum(m: map<string, int>, keys: set<string>): int
    requires keys <= m.Keys
    decreases keys
  {
    if keys == {} then 0 else var k :| k in keys; m[k] + ValueSum(m, keys - {k})
  }

  /** The sum of all values of `m`. */
  ghost function MapSum(m: map<string, int>): int {
    ValueSum(m, m.Keys)
  }

  /** Any key may be taken out of the sum first. */
  lemma {:induction false} ValueSumRemove(m: map<string, int>, keys: set<string>, k: string)
    requires keys <= m.Keys && k in keys
    ensures ValueSum(m, keys) == m[k] + ValueSum(m, keys - {k})
    decreases keys
  {
    var j :| j in keys && ValueSum(m, keys) == m[j] + ValueSum(m, keys - {j});
    if j != k {
      ValueSumRemove(m, keys - {j}, k);
      ValueSumRemove(m, keys - {k}, j);
      assert keys - {j} - {k} == keys - {k} - {j};
    }
  }

  /** Maps that agree on `keys` have the same sum over them. */
  lemma {:induction false} ValueSumAgree(m: map<string, int>, n: map<string, int>, keys: set<string>)
    requires keys <= m.Keys && keys <= n.Keys
    requires forall k :: k in keys ==> m[k] == n[k]
    ensures ValueSum(m, keys) == ValueSum(n, keys)
    decreases keys
  {
    if keys != {} {
      var j :| j in keys && ValueSum(m, keys) == m[j] + ValueSum(m, keys - {j});
      ValueSumRemove(n, keys, j);
      ValueSumAgree(m, n, keys - {j});
    }
  }

  /** Setting one key changes the sum by the difference between the new and the old value. */
  lemma MapSumUpdate(m: map<string, int>, k: string, v: int)
    ensures MapSum(m[k := v]) == MapSum(m) - (if k in m then m[k] else 0) + v
  {
    var m' := m[k := v];
    ValueSumRemove(m', m'.Keys, k);
    ValueSumAgree(m', m, m'.Keys - {k});
    if k in m {
      ValueSumRemove(m, m.Keys, k);
      assert m'.Keys - {k} == m.Keys - {k};
    } else {
      assert m'.Keys - {k} == m.Keys;
    }
  }

  /** A prefix of a sequence without wrap-around has none either. */
  lemma NoOverflowPrefix(s: seq<ContentItem>, x: ContentItem)
    requires NoOverflow(s + [x])
    ensures NoOverflow(s)
  {
    var t := s + [x];
    assert t[..|t| - 1] == s;
    forall kind ensures Count(s, kind) < 0x8000 {
      assert Count(t, kind) < 0x8000;
    }
  }

  /** Without wrap-around a type's entry is its count, and one more item does not wrap it. */
  lemma EntryBelowLimit(s: seq<ContentItem>, x: ContentItem)
    requires NoOverflow(s + [x]) && x.kind != TextContent
    ensures var entry := if x.kind in Histogram(s) then Histogram(s)[x.kind] else 0;
      entry == Count(s, x.kind) && Int16(entry + 1) == entry + 1
  {
    var k := x.kind;
    var t := s + [x];
    assert t[..|t| - 1] == s;
    assert Count(t, k) == Count(s, k) + 1 < 0x8000;
    Int16Fits(Count(s, k) + 1);
    if k in Histogram(s) {
      Int16Fits(Count(s, k));
    } else {
      CountAbsent(s, k);
    }
  }

  /** One more item adds one to the sum of the statistic when it is not text. */
  lemma HistogramSumStep(s: seq<ContentItem>, x: ContentItem)
    requires NoOverflow(s + [x])
    ensures MapSum(Histogram(s + [x])) == MapSum(Histogram(s)) + (if x.kind != TextContent then 1 else 0)
  {
    HistogramStep(s, x);
    if x.kind != TextContent {
      var h := Histogram(s);
      var entry := if x.kind in h then h[x.kind] else 0;
      EntryBelowLimit(s, x);
      MapSumUpdate(h, x.kind, entry + 1);
    }
  }

  /** With no wrap-around the statistic's values add up to the number of non-text items. */
  lemma {:induction false} HistogramSum(items: seq<ContentItem>)
    requires NoOverflow(items)
    ensures MapSum(Histogram(items)) == NonTextCount(items)
    decreases |items|
  {
    if items == [] {
      assert Histogram(items) == map[];
    } else {
      var s := items[..|items| - 1];
      var x := items[|items| - 1];
      assert items == s + [x];
      NoOverflowPrefix(s, x);
      HistogramSum(s);
      HistogramSumStep(s, x);
    }
  }

  /** The innermost loop: counts the content items of one question into the statistic. */
  method TallyContent(statistic: map<string, int>, ghost seen: seq<ContentItem>, content: seq<ContentItem>)
    returns (result: map<string, int>)
    requires statistic == Histogram(seen)
    ensures result == Histogram(seen + content)
  {
    result := statistic;
    ghost var counted := seen;
    assert seen + content[..0] == seen;
    for c := 0 to |content|
      invariant counted == seen + content[..c]
      invariant result == Histogram(counted)
    {
      var item := content[c];
      if item.kind != TextContent {
        var count := if item.kind in result then result[item.kind] else 0;
        result := result[item.kind := Int16(count + 1)];
      }
      HistogramStep(counted, item);
      assert seen + content[..c + 1] == counted + [item];
      counted := counted + [item];
    }
    assert content[..|content|] == content;
  }

  /** The loop over the questions of one theme, counting their content items. */
  method TallyQuestions(statistic: map<string, int>, ghost done: seq<Question>, questions: seq<Question>)
    returns (result: map<string, int>)
    requires statistic == Histogram(QuestionsContent(done))
    ensures result == Histogram(QuestionsContent(done + questions))
  {
    result := statistic;
    assert done + questions[..0] == done;
    for q := 0 to |questions|
      invariant result == Histogram(QuestionsContent(done + questions[..q]))
    {
      var question := questions[q];
      result := TallyContent(result, QuestionsContent(done + questions[..q]), question.content);
      ghost var next := done + questions[..q + 1];
      assert next[..|next| - 1] == done + questions[..q] && next[|next| - 1] == question;
    }
    assert questions[..|questions|] == questions;
  }

  /** The loop over the themes of one round: adds up their questions and counts their content. */
  method TallyThemes(statistic: map<string, int>, questionCount: int, ghost done: seq<Question>, themes: seq<Theme>)
    returns (statistic': map<string, int>, questionCount': int)
    requires questionCount == Int32(|done|)
    requires statistic == Histogram(QuestionsContent(done))
    ensures questionCount' == Int32(|done + ThemesQuestions(themes)|)
    ensures statistic' == Histogram(QuestionsContent(done + ThemesQuestions(themes)))
  {
    statistic', questionCount' := statistic, questionCount;
    ghost var counted := done;
    assert done + ThemesQuestions(themes[..0]) == done;
    for t := 0 to |themes|
      invariant counted == done + ThemesQuestions(themes[..t])
      invariant questionCount' == Int32(|counted|)
      invariant statistic' == Histogram(QuestionsContent(counted))
    {
      var theme := themes[t];
      Int32Add(|counted|, |theme.questions|);
      questionCount' := Int32(questionCount' + |theme.questions|);
      statistic' := TallyQuestions(statistic', counted, theme.questions);
      assert themes[..t + 1][..t] == themes[..t];
      assert ThemesQuestions(themes[..t + 1]) == ThemesQuestions(themes[..t]) + theme.questions;
      counted := counted + theme.questions;
    }
    assert themes[..|themes|] == themes;
  }

  /**
   * `IndexPackage`: walks every round, theme, question and content item once. The question
   * counter is an `int` and the per-type counters are `short`s, both unchecked.
   */
  method IndexPackage(package: Package, today: int) returns (info: PackageInfo)
    ensures |info.rounds| == |package.rounds|
    ensures forall i :: 0 <= i < |info.rounds| ==>
      info.rounds[i].name == package.rounds[i].name && info.rounds[i].themeNames == ThemeNames(package.rounds[i])
    ensures info.questionCount == Int16(|AllQuestions(package)|)
    ensures info.contentTypeStatistic == Histogram(AllContent(package))
    ensures info.name == package.name && info.difficulty == Int16(package.difficulty)
    ensures info.language == package.language && info.publisher == package.publisher
    ensures info.authors == package.info.authors && info.tags == package.tags
    ensures info.restriction == package.restriction && info.createDate == today
  {
    var statistic: map<string, int> := map[];
    var questionCount := 0;
    var summary: seq<RoundModel> := [];
    ghost var done: seq<Question> := [];
    var rounds := package.rounds;
    for r := 0 to |rounds|
      invariant |summary| == r
      invariant forall i :: 0 <= i < r ==> summary[i] == RoundModel(rounds[i].name, ThemeNames(rounds[i]))
      invariant done == RoundsQuestions(rounds[..r])
      invariant questionCount == Int32(|done|)
      invariant statistic == Histogram(QuestionsContent(done))
    {
      var round := rounds[r];
      summary := summary + [RoundModel(round.name, ThemeNames(round))];
      statistic, questionCount := TallyThemes(statistic, questionCount, done, round.themes);
      assert rounds[..r + 1][..r] == rounds[..r];
      assert RoundsQuestions(rounds[..r + 1]) == RoundsQuestions(rounds[..r]) + ThemesQuestions(round.themes);
      done := done + ThemesQuestions(round.themes);
    }
    assert rounds[..|rounds|] == rounds;
    Int16OfInt32(|done|);
    info := PackageInfo(
      package.name, Int16(package.difficulty), package.publisher, today, package.language,
      summary, Int16(questionCount), statistic, package.info.authors, package.tags, package.restriction);
  }
}
