/** The `Validator` part of src/app.js: `validateLink`, a yup string schema
    with a `url()` test and a `notOneOf(urls)` test.

    yup's URL regular expression is not modelled: the schema's URL test is the
    predicate `isUrl`, passed in by the caller. */
module Validator {
  import opened Wrappers

  /** The two messages the schema can reject with. */
  datatype ValidationError = InvalidUrl | SameUrl

  /** `validateLink`: `None` when the link passes, otherwise the first failing
      test, the URL test before the uniqueness test. */
  function ValidateLink(link: string, urls: seq<string>, isUrl: string -> bool): (r: Option<ValidationError>)
    ensures r.None? <==> isUrl(link) && link !in urls
    ensures r == Some(InvalidUrl) <==> !isUrl(link)
    ensures r == Some(SameUrl) <==> isUrl(link) && link in urls
  {
    if !isUrl(link) then Some(InvalidUrl)
    else if link in urls then Some(SameUrl)
    else None
  }

  /** The same two tests run in the opposite order, as some yup versions run a
      `notOneOf` blacklist before the other tests. */
  function ValidateLinkUniqueFirst(link: string, urls: seq<string>, isUrl: string -> bool): (r: Option<ValidationError>)
    ensures r.None? <==> isUrl(link) && link !in urls
    ensures r == Some(SameUrl) <==> link in urls
    ensures r == Some(InvalidUrl) <==> !isUrl(link) && link !in urls
  {
    if link in urls then Some(SameUrl)
    else if !isUrl(link) then Some(InvalidUrl)
    else None
  }

  /** The order of the two tests cannot be observed while every known url
      itself passed the URL test, which holds of every url the application
      stores, since a url is stored only after it validated. */
  lemma TestOrderUnobservable(link: string, urls: seq<string>, isUrl: string -> bool)
    requires forall u :: u in urls ==> isUrl(u)
    ensures ValidateLink(link, urls, isUrl) == ValidateLinkUniqueFirst(link, urls, isUrl)
  {
  }
}
