/** The `Parser` and `Error handler` parts of src/app.js: `parseRSS` and
    `getErrorType`.

    The XML text itself is not modelled. `DOMParser` always yields a document;
    what `parseRSS` reads from it is captured by `Document`: whether the parser
    inserted a `parsererror` element, the text of the first `title` and the first
    `description` element anywhere in the document (`None` when there is none,
    where `querySelector` returns `null`), and, per `item` element in document
    order, the text of its first `title`, `description` and `link` descendants. */
module Parser {
  import opened Wrappers

  datatype ItemElement = ItemElement(title: Option<string>, description: Option<string>, link: Option<string>)

  datatype Document = Document(
    hasParserError: bool,
    title: Option<string>,
    description: Option<string>,
    items: seq<ItemElement>)

  /** A thrown JavaScript error, seen through the two flags `getErrorType` reads. */
  datatype Failure = Failure(isParsingError: bool, isAxiosError: bool)

  /** `new Error('Parsing error')` with `isParsingError = true`. */
  const ParsingFailure := Failure(true, false)
  /** The `TypeError` thrown by reading `textContent` of a missing element. */
  const MissingElement := Failure(false, false)
  /** A rejected `axios.get`. */
  const NetworkFailure := Failure(false, true)

  datatype FeedInfo = FeedInfo(title: string, description: string)

  /** One parsed `item`: a post that has no id yet. */
  datatype ParsedItem = ParsedItem(title: string, description: string, link: string)

  datatype Parsed = Parsed(feed: FeedInfo, items: seq<ParsedItem>)

  datatype ErrorType = ParsingError | NetworkError | UnknownError

  predicate ItemComplete(e: ItemElement) {
    e.title.Some? && e.description.Some? && e.link.Some?
  }

  function ItemOf(e: ItemElement): ParsedItem
    requires ItemComplete(e)
  {
    ParsedItem(e.title.value, e.description.value, e.link.value)
  }

  /** The `.map` over the item elements: the first item missing one of its
      three elements throws, so one missing element fails the whole document. */
  function ParseItems(es: seq<ItemElement>): (r: Result<seq<ParsedItem>, Failure>)
    ensures r.Ok? <==> forall i :: 0 <= i < |es| ==> ItemComplete(es[i])
    ensures r.Err? ==> r.error == MissingElement
    ensures r.Ok? ==> |r.value| == |es| && forall i :: 0 <= i < |es| ==> r.value[i] == ItemOf(es[i])
  {
    if es == [] then Ok([])
    else if !ItemComplete(es[0]) then Err(MissingElement)
    else
      match ParseItems(es[1..])
      case Err(e) => Err(e)
      case Ok(rest) => Ok([ItemOf(es[0])] + rest)
  }

  /** `parseRSS`: the parser-error check comes first, then the feed's title and
      description, then the items. */
  function ParseRSS(doc: Document): (r: Result<Parsed, Failure>)
    ensures r.Err? && r.error.isParsingError <==> doc.hasParserError
    ensures r.Err? ==> !r.error.isAxiosError
    ensures r.Ok? <==>
      !doc.hasParserError && doc.title.Some? && doc.description.Some? &&
      forall i :: 0 <= i < |doc.items| ==> ItemComplete(doc.items[i])
    ensures r.Ok? ==>
      r.value.feed == FeedInfo(doc.title.value, doc.description.value) &&
      |r.value.items| == |doc.items| &&
      forall i :: 0 <= i < |doc.items| ==> r.value.items[i] == ItemOf(doc.items[i])
  {
    if doc.hasParserError then Err(ParsingFailure)
    else if doc.title.None? || doc.description.None? then Err(MissingElement)
    else
      match ParseItems(doc.items)
      case Err(e) => Err(e)
      case Ok(items) => Ok(Parsed(FeedInfo(doc.title.value, doc.description.value), items))
  }

  /** `getErrorType`: the parsing flag wins over the axios flag; neither gives
      `'Unknown Error'`. */
  function GetErrorType(e: Failure): (t: ErrorType)
    ensures t == ParsingError <==> e.isParsingError
    ensures t == NetworkError <==> !e.isParsingError && e.isAxiosError
    ensures t == UnknownError <==> !e.isParsingError && !e.isAxiosError
  {
    if e.isParsingError then ParsingError
    else if e.isAxiosError then NetworkError
    else UnknownError
  }

  /** How a failed parse is reported: only the parser-error flag yields
      `'Parsing Error'`; a missing element is an `'Unknown Error'`, never a
      network one. */
  lemma ParseFailureClassified(doc: Document)
    requires ParseRSS(doc).Err?
    ensures GetErrorType(ParseRSS(doc).error) == (if doc.hasParserError then ParsingError else UnknownError)
  {
  }
}
