/** The user-visible outcomes that the jsdom tests of the repository check,
    and a few more, derived from the contracts of module `App` for a fresh
    application state.
    What the tests fetch from the network is a parameter here. */
module Scenarios {
  import opened Wrappers
  import opened Parser
  import opened Validator
  import opened Posts
  import opened App

  /** A URL whose feed loads, submitted twice: the first submission adds the
      feed and ends `'idle'`, the second is rejected as a duplicate and adds
      nothing. */
  method SubmitSameUrlTwice(isUrl: string -> bool, link: string, doc: Document)
    returns (firstState: LoadState, error: Option<ValidationError>, feedCount: nat)
    requires isUrl(link) && ParseRSS(doc).Ok?
    ensures firstState == Idle
    ensures error == Some(SameUrl) && feedCount == 1
  {
    var app := new AppState(isUrl);
    app.Submit(link, Ok(doc));
    firstState := app.loadState;
    var parsed := ParseRSS(doc).value;
    AddedUrlRejected(parsed.feed.title, parsed.feed.description, link, [], isUrl);
    app.Submit(link, Ok(doc));
    error, feedCount := app.formError, |app.feeds|;
  }

  /** A string that is not a URL is rejected before anything is fetched. */
  method SubmitInvalidUrl(isUrl: string -> bool, link: string, response: Result<Document, Failure>)
    returns (error: Option<ValidationError>, state: LoadState, feedCount: nat)
    requires !isUrl(link)
    ensures error == Some(InvalidUrl) && state == Idle && feedCount == 0
  {
    var app := new AppState(isUrl);
    app.Submit(link, response);
    error, state, feedCount := app.formError, app.loadState, |app.feeds|;
  }

  /** A page that is not XML makes the parser report an error: the load fails
      with `'Parsing Error'` and no feed or post is stored. */
  method SubmitNonRss(isUrl: string -> bool, link: string, doc: Document)
    returns (state: LoadState, errorType: Option<ErrorType>, feedCount: nat, postCount: nat)
    requires isUrl(link) && doc.hasParserError
    ensures state == Failed && errorType == Some(ParsingError)
    ensures feedCount == 0 && postCount == 0
  {
    var app := new AppState(isUrl);
    app.Submit(link, Ok(doc));
    state, errorType, feedCount, postCount := app.loadState, app.errorType, |app.feeds|, |app.posts|;
  }

  /** A URL whose fetch is rejected by axios: the load fails with
      `'Network Error'` and no feed or post is stored. */
  method SubmitUnreachable(isUrl: string -> bool, link: string)
    returns (state: LoadState, errorType: Option<ErrorType>, feedCount: nat, postCount: nat)
    requires isUrl(link)
    ensures state == Failed && errorType == Some(NetworkError)
    ensures feedCount == 0 && postCount == 0
  {
    var app := new AppState(isUrl);
    app.Submit(link, Err(NetworkFailure));
    state, errorType, feedCount, postCount := app.loadState, app.errorType, |app.feeds|, |app.posts|;
  }

  /** Two clicks on a post id while no post has it: the first writes
      `undefined` over `null`, the render of the modal throws and the id is not
      marked read; the second writes `undefined` over `undefined`, which the
      proxy does not report, so the handler goes on and marks the id read. */
  method ClickUnknownPostTwice(isUrl: string -> bool, id: PostId)
    returns (markedFirst: bool, markedSecond: bool)
    ensures !markedFirst && markedSecond
  {
    var app := new AppState(isUrl);
    app.OpenPost(Some(id));
    markedFirst := id in app.readPostIds;
    app.OpenPost(Some(id));
    markedSecond := id in app.readPostIds;
  }
}
