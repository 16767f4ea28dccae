/**
 * The package document tree of the SIPackages library, as far as the services read and
 * write it: a package holds rounds, a round themes, a theme questions, and a question its
 * content items. Every level carries an `Info` with author and source lists and a comment.
 */
module Documents {
  import opened Wrappers

  /** A package identifier, kept in the textual form that `Guid.ToString()` prints. */
  datatype Guid = Guid(text: string)

  /** The two attribution lists every `Info` carries. */
  datatype Attribution = Authors | Sources

  datatype Info = Info(authors: seq<string>, sources: seq<string>, comments: string)
  {
    function Get(kind: Attribution): seq<string> {
      if kind == Authors then authors else sources
    }
  }

  const EmptyInfo: Info := Info([], [], "")

  /** `ContentTypes.Text` (also `AtomTypes.Text`): the content type that has no media file. */
  const TextContent: string := "text"

  /** One content item of a question: its type ("text", "image", "audio", ...) and its value (text or file name). */
  datatype ContentItem = ContentItem(kind: string, value: string)

  datatype Question = Question(price: int, info: Info, content: seq<ContentItem>)

  datatype Theme = Theme(name: string, info: Info, questions: seq<Question>)

  datatype RoundKind = Standard | Final

  datatype Round = Round(name: string, kind: RoundKind, info: Info, themes: seq<Theme>)

  datatype Package = Package(
    name: string,
    difficulty: int,
    language: Option<string>,
    publisher: Option<string>,
    restriction: string,
    tags: seq<string>,
    info: Info,
    rounds: seq<Round>)

  type Blob = seq<bv8>

  /** What `TryGetMedia` finds for a content item: the media, with or without a stream to read. */
  datatype MediaInfo = MediaInfo(stream: Option<Blob>)

  /** A file stored in one of a document's media collections. */
  datatype MediaFile = MediaFile(name: string, data: Blob)

  /** What `GetLink` returns for a link entry: the referenced text and the literal tail after the reference. */
  datatype Link = Link(target: string, tail: string)

  /**
   * An opened source document. The library services the generator calls on it are given
   * as functions: `GetLink` on one entry of an author or source list, `GetRealAuthors` /
   * `GetRealSources` on a whole list, and `TryGetMedia` on a content item.
   */
  datatype SourceDocument = SourceDocument(
    package: Package,
    getLink: (Attribution, string) -> Option<Link>,
    realAttribution: (Attribution, seq<string>) -> seq<string>,
    tryGetMedia: ContentItem -> Option<MediaInfo>)

  /**
   * The document the generator writes: its package tree and its media collections, keyed
   * by the content type whose files they hold (a type without a key is one for which
   * `TryGetCollection` returns null).
   */
  datatype TargetDocument = TargetDocument(package: Package, collections: map<string, seq<MediaFile>>)
}
