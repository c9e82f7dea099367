/** The controllers and the state record of src/app.js: the application state,
    `handleAddFeed`, the per-feed merge and the round of `updateRSS`,
    `handleReadPost`, and the two event handlers that call them (form submit and
    post click), each with the fetch result it would receive given as a
    parameter.

    The `on-change` proxy through which the controllers write the state is
    modelled by the ghost `log`: one `Change` per write that the proxy reports.
    The proxy compares a written value with the previous one, so writing an
    equal string, boolean or null reports nothing; a new array and an in-place
    `push`/`unshift` are always reported. */
module App {
  import opened Wrappers
  import opened Parser
  import opened Validator
  import opened Posts

  datatype Feed = Feed(title: string, description: string, url: string)

  /** `loadStatus.state`. */
  datatype LoadState = Idle | Loading | Failed

  /** A notification of the proxy: the path written and, for the leaf values
      the view reads from the notification, the value written. */
  datatype Change =
    | FeedsChanged
    | PostsChanged
    | ReadPostIdsChanged
    | LoadStateChanged(state: LoadState)
    | ErrorTypeChanged(errorType: ErrorType)
    | FormIsValidChanged(isValid: bool)
    | FormErrorChanged(error: Option<ValidationError>)
    | CurrentPostChanged(post: ModalPost)

  /** `modal.currentPost`: `null` until the first click on a post, `undefined`
      after a click on an id that no post has (what `find` returns then), or
      the post clicked. The proxy compares with `Object.is`, so `undefined`
      written over `null` is a change. */
  datatype ModalPost = NoPost | Undefined | Shown(post: Post)

  /** The value `posts.find` yields for a lookup. */
  function ModalOf(found: Option<Post>): ModalPost {
    match found
    case None => Undefined
    case Some(p) => Shown(p)
  }

  /** The notification of writing `after` over `before`. */
  function Notify<T(==)>(before: T, after: T, c: Change): seq<Change> {
    if before == after then [] else [c]
  }

  /** The notification of a write that changed something when `changed`. */
  function NotifyIf(changed: bool, c: Change): seq<Change> {
    if changed then [c] else []
  }

  /** `feeds.map((feed) => feed.url)`. */
  function FeedUrls(feeds: seq<Feed>): (r: seq<string>)
    ensures |r| == |feeds|
    ensures forall i :: 0 <= i < |feeds| ==> r[i] == feeds[i].url
  {
    seq(|feeds|, i requires 0 <= i < |feeds| => feeds[i].url)
  }

  /** The submit handler rejects exactly the urls of the stored feeds as
      duplicates, provided they are URLs at all. */
  lemma DuplicateRejected(link: string, feeds: seq<Feed>, isUrl: string -> bool)
    ensures ValidateLink(link, FeedUrls(feeds), isUrl) == Some(SameUrl) <==>
      isUrl(link) && exists f :: f in feeds && f.url == link
  {
  }

  /** Feed urls are distinct and each passed the URL test. */
  predicate UrlsValid(feeds: seq<Feed>, isUrl: string -> bool) {
    (forall i, j :: 0 <= i < j < |feeds| ==> feeds[i].url != feeds[j].url) &&
    forall f :: f in feeds ==> isUrl(f.url)
  }

  /** A feed added after its link validated keeps the feed urls distinct URLs. */
  lemma AddValidatedKeepsUrlsValid(feeds: seq<Feed>, feed: Feed, isUrl: string -> bool)
    requires UrlsValid(feeds, isUrl)
    requires ValidateLink(feed.url, FeedUrls(feeds), isUrl).None?
    ensures UrlsValid([feed] + feeds, isUrl)
  {
  }

  /** `fetchRSS(link).then((res) => parseRSS(res.data.contents))`: the fetched
      document is parsed; a rejected fetch passes its failure on. */
  function Load(response: Result<Document, Failure>): (r: Result<Parsed, Failure>)
    ensures r.Ok? <==> response.Ok? && ParseRSS(response.value).Ok?
    ensures response.Err? ==> r == Err(response.error)
    ensures r.Err? && response.Ok? ==> GetErrorType(r.error) != NetworkError
  {
    match response
    case Err(e) => Err(e)
    case Ok(doc) => ParseRSS(doc)
  }

  /** The application state `state` of src/app.js. */
  class AppState {
    /** The URL test of the validation schema. */
    const isUrl: string -> bool
    var feeds: seq<Feed>
    var posts: seq<Post>
    var readPostIds: seq<PostId>
    var loadState: LoadState
    var errorType: Option<ErrorType>
    var formIsValid: bool
    var formError: Option<ValidationError>
    var currentPost: ModalPost
    /** lodash's `uniqueId` counter. */
    var nextId: nat
    ghost var log: seq<Change>

    function Store(): PostsState
      reads this`posts, this`nextId
    {
      PostsState(posts, nextId)
    }

    /** Post ids are drawn from the counter and distinct; no post is marked
        read twice. */
    ghost predicate Valid()
      reads this`posts, this`nextId, this`readPostIds
    {
      ValidPosts(Store()) && NoDuplicates(readPostIds)
    }

    /** Feed urls are distinct URLs: what validation before each add ensures. */
    ghost predicate FeedsValid()
      reads this`feeds
    {
      UrlsValid(feeds, isUrl)
    }

    /** Every read id is the id of a post. */
    ghost predicate ReadMarksKnown()
      reads this`readPostIds, this`posts
    {
      forall id :: id in readPostIds ==> id in Ids(posts)
    }

    /** The initial `state` of `app()`. */
    constructor (isUrl: string -> bool)
      ensures this.isUrl == isUrl
      ensures feeds == [] && posts == [] && readPostIds == [] && nextId == 0
      ensures loadState == Idle && errorType == None
      ensures formIsValid && formError == None && currentPost == NoPost
      ensures log == []
      ensures Valid() && FeedsValid() && ReadMarksKnown()
    {
      this.isUrl := isUrl;
      feeds, posts, readPostIds, nextId := [], [], [], 0;
      loadState, errorType := Idle, None;
      formIsValid, formError, currentPost := true, None, NoPost;
      log := [];
    }

    method SetLoadState(s: LoadState)
      modifies this`loadState, this`log
      ensures loadState == s
      ensures log == old(log) + Notify(old(loadState), s, LoadStateChanged(s))
    {
      log := log + Notify(loadState, s, LoadStateChanged(s));
      loadState := s;
    }

    method SetErrorType(t: ErrorType)
      modifies this`errorType, this`log
      ensures errorType == Some(t)
      ensures log == old(log) + Notify(old(errorType), Some(t), ErrorTypeChanged(t))
    {
      log := log + Notify(errorType, Some(t), ErrorTypeChanged(t));
      errorType := Some(t);
    }

    method SetForm(isValid: bool, error: Option<ValidationError>)
      modifies this`formIsValid, this`formError, this`log
      ensures formIsValid == isValid && formError == error
      ensures log == old(log) + Notify(old(formIsValid), isValid, FormIsValidChanged(isValid))
                              + Notify(old(formError), error, FormErrorChanged(error))
    {
      log := log + Notify(formIsValid, isValid, FormIsValidChanged(isValid));
      formIsValid := isValid;
      log := log + Notify(formError, error, FormErrorChanged(error));
      formError := error;
    }

    /** lodash `uniqueId()`: increments the counter and returns it. */
    method UniqueId() returns (id: PostId)
      modifies this`nextId
      ensures id == old(nextId) + 1 && nextId == id
    {
      nextId := nextId + 1;
      id := nextId;
    }

    /** `items.map((post) => { post.id = uniqueId(); return post; })`. */
    method AssignIds(items: seq<ParsedItem>) returns (ps: seq<Post>)
      modifies this`nextId
      ensures ps == WithIds(items, old(nextId) + 1)
      ensures nextId == old(nextId) + |items|
    {
      ps := [];
      var i := 0;
      while i < |items|
        invariant 0 <= i <= |items|
        invariant nextId == old(nextId) + i
        invariant |ps| == i
        invariant forall k :: 0 <= k < i ==> ps[k].id == old(nextId) + 1 + k && Strip(ps[k]) == items[k]
      {
        var id := UniqueId();
        ps := ps + [Post(id, items[i].title, items[i].description, items[i].link)];
        i := i + 1;
      }
      ghost var w := WithIds(items, old(nextId) + 1);
      WithIdsSpec(items, old(nextId) + 1);
      assert forall k :: 0 <= k < |ps| ==> ps[k].id == w[k].id && Strip(ps[k]) == Strip(w[k]);
    }

    /** The success branch of `handleAddFeed`: `feed.url = link`,
        `state.feeds.unshift(feed)`, ids for every item, and the items put
        before the posts. */
    method AddParsed(link: string, parsed: Parsed)
      requires Valid()
      modifies this`feeds, this`posts, this`nextId, this`log
      ensures Valid()
      ensures Ids(old(posts)) <= Ids(posts)
      ensures feeds == [Feed(parsed.feed.title, parsed.feed.description, link)] + old(feeds)
      ensures Store() == Prepend(old(Store()), parsed.items)
      ensures log == old(log) + [FeedsChanged] + [PostsChanged]
    {
      feeds := [Feed(parsed.feed.title, parsed.feed.description, link)] + feeds;
      log := log + [FeedsChanged];
      ghost var before := Store();
      PrependValid(before, parsed.items);
      var newPosts := AssignIds(parsed.items);
      posts := newPosts + posts;
      assert Store() == Prepend(before, parsed.items);
      log := log + [PostsChanged];
    }

    /** `handleAddFeed(state, link)` once the fetch has settled with `response`:
        `'loading'` is written first; on success the feed, with `url = link`,
        goes first among the feeds and all its items, with fresh ids and no
        deduplication, go before the posts, and the state ends `'idle'` with the
        error type left as it was; on failure feeds and posts are untouched, the
        state is `'failed'` and the error type is the failure's classification. */
    method HandleAddFeed(link: string, loaded: Result<Parsed, Failure>)
      requires Valid()
      modifies this`feeds, this`posts, this`nextId, this`loadState, this`errorType, this`log
      ensures Valid()
      ensures old(ReadMarksKnown()) ==> ReadMarksKnown()
      ensures loaded.Ok? ==>
        feeds == [Feed(loaded.value.feed.title, loaded.value.feed.description, link)] + old(feeds) &&
        Store() == Prepend(old(Store()), loaded.value.items) &&
        loadState == Idle && errorType == old(errorType) &&
        log == old(log) + Notify(old(loadState), Loading, LoadStateChanged(Loading))
                        + [FeedsChanged] + [PostsChanged] + [LoadStateChanged(Idle)]
      ensures loaded.Err? ==>
        var t := GetErrorType(loaded.error);
        feeds == old(feeds) && Store() == old(Store()) &&
        loadState == Failed && errorType == Some(t) &&
        log == old(log) + Notify(old(loadState), Loading, LoadStateChanged(Loading))
                        + [LoadStateChanged(Failed)] + Notify(old(errorType), Some(t), ErrorTypeChanged(t))
    {
      SetLoadState(Loading);
      if loaded.Ok? {
        AddParsed(link, loaded.value);
        SetLoadState(Idle);
      } else {
        SetLoadState(Failed);
        SetErrorType(GetErrorType(loaded.error));
      }
    }

    /** `differenceBy(union(items, state.posts), state.posts, 'link')`: the
        parsed items whose link is not the link of a current post. */
    method NewItems(items: seq<ParsedItem>) returns (newItems: seq<ParsedItem>)
      ensures newItems == DifferenceByLink(items, posts)
    {
      var allPosts := UnionWithPosts(items, posts);
      newItems := DifferenceByLink(allPosts, posts);
      UnionThenDifference(items, posts);
    }

    /** The merge in the `.then` of one feed in `updateRSS`: the fetched items
        are united with the posts, the ones whose link is not a post's link get
        fresh ids, and only when there is at least one is `state.posts`
        reassigned. */
    method MergeItems(items: seq<ParsedItem>)
      requires Valid()
      modifies this`posts, this`nextId, this`log
      ensures Valid()
      ensures Store() == Merge(old(Store()), items)
      ensures Ids(old(posts)) <= Ids(posts)
      ensures log == old(log) + NotifyIf(|posts| != |old(posts)|, PostsChanged)
      ensures ItemLinks(items) <= Links(old(posts)) ==> posts == old(posts) && log == old(log)
    {
      ghost var before := Store();
      if ItemLinks(items) <= Links(posts) {
        MergeNothingNew(before, items);
      }
      var newItems := NewItems(items);
      MergeValid(before, items);
      var newPosts := AssignIds(newItems);
      if |newPosts| > 0 {
        posts := newPosts + posts;
        assert Store() == Merge(before, items);
        log := log + [PostsChanged];
      } else {
        assert newItems == [];
        assert Merge(before, items) == PostsState([] + before.posts, before.nextId);
        assert [] + before.posts == before.posts;
      }
    }

    /** The `.then` of one feed in `updateRSS`: a rejected fetch (whose `catch`
        leaves `res` undefined) or a failed parse throws before the merge. */
    method PollFeed(response: Result<Document, Failure>)
      requires Valid()
      modifies this`posts, this`nextId, this`log
      ensures Valid()
      ensures Store() == PollStep(old(Store()), response)
      ensures Ids(old(posts)) <= Ids(posts)
      ensures log == old(log) + NotifyIf(|posts| != |old(posts)|, PostsChanged)
    {
      var r := Load(response);
      if r.Ok? {
        MergeItems(r.value.items);
      }
    }

    /** One round of `updateRSS`: the feeds' handlers run in the order their
        fetches settled, given by `responses`; a feed whose fetch never settles
        is absent from it. */
    method UpdateRSS(responses: seq<Result<Document, Failure>>)
      requires Valid()
      modifies this`posts, this`nextId, this`log
      ensures Valid()
      ensures Store() == Round(old(Store()), responses)
      ensures old(ReadMarksKnown()) ==> ReadMarksKnown()
      ensures |old(log)| <= |log| && log[..|old(log)|] == old(log)
      ensures forall k :: |old(log)| <= k < |log| ==> log[k] == PostsChanged
    {
      for i := 0 to |responses|
        invariant Valid()
        invariant Store() == Round(old(Store()), responses[..i])
        invariant Ids(old(posts)) <= Ids(posts)
        invariant |old(log)| <= |log| && log[..|old(log)|] == old(log)
        invariant forall k :: |old(log)| <= k < |log| ==> log[k] == PostsChanged
      {
        PollFeed(responses[i]);
        assert responses[..i + 1][..i] == responses[..i];
      }
      assert responses[..|responses|] == responses;
    }

    /** `handleReadPost(state, postId)`: appends the id unless it is already
        there. */
    method HandleReadPost(postId: PostId)
      requires Valid()
      modifies this`readPostIds, this`log
      ensures Valid()
      ensures readPostIds == MarkRead(old(readPostIds), postId)
      ensures log == old(log) + Notify(old(readPostIds), readPostIds, ReadPostIdsChanged)
    {
      if postId !in readPostIds {
        readPostIds := readPostIds + [postId];
        log := log + [ReadPostIdsChanged];
      }
    }

    /** The click handler of the post list: without a `data-id` nothing
        happens; otherwise the result of looking the id up becomes the modal's
        post, and then the id is marked read. The proxy's listener renders the
        modal from the written value and throws on `undefined`, which ends the
        handler before the id is marked: so a click on an id that no post has
        marks nothing when the write is reported, and marks the id when
        `undefined` was already there. */
    method OpenPost(postId: Option<PostId>)
      requires Valid()
      modifies this`currentPost, this`readPostIds, this`log
      ensures Valid()
      ensures postId.None? ==> currentPost == old(currentPost) && readPostIds == old(readPostIds) && log == old(log)
      ensures postId.Some? ==>
        var shown := ModalOf(FindPost(posts, postId.value));
        var reported := old(currentPost) != shown;
        currentPost == shown &&
        readPostIds == (if reported && shown.Undefined? then old(readPostIds) else MarkRead(old(readPostIds), postId.value)) &&
        log == old(log) + NotifyIf(reported, CurrentPostChanged(shown))
                        + Notify(old(readPostIds), readPostIds, ReadPostIdsChanged)
      ensures postId.Some? && postId.value in Ids(posts) ==>
        currentPost.Shown? && currentPost.post in posts && currentPost.post.id == postId.value &&
        postId.value in readPostIds
      ensures postId.Some? && postId.value !in Ids(posts) ==> currentPost == Undefined
      ensures old(ReadMarksKnown()) && (postId.Some? ==> postId.value in Ids(posts)) ==> ReadMarksKnown()
    {
      if postId.None? {
        return;
      }
      var shown := ModalOf(FindPost(posts, postId.value));
      var reported := currentPost != shown;
      log := log + NotifyIf(reported, CurrentPostChanged(shown));
      currentPost := shown;
      if reported && shown.Undefined? {
        // rendering `undefined` throws out of the handler
        return;
      }
      HandleReadPost(postId.value);
    }

    /** The submit handler: the link is validated against the urls of the
        stored feeds; a rejected link only updates the form and is never
        fetched; an accepted one clears the form error and is added. */
    method Submit(link: string, response: Result<Document, Failure>)
      requires Valid()
      modifies this`feeds, this`posts, this`nextId, this`loadState, this`errorType
      modifies this`formIsValid, this`formError, this`log
      ensures Valid()
      ensures old(FeedsValid()) ==> FeedsValid()
      ensures old(ReadMarksKnown()) ==> ReadMarksKnown()
      ensures var v := ValidateLink(link, FeedUrls(old(feeds)), isUrl);
        formIsValid == v.None? && formError == v
      ensures var v := ValidateLink(link, FeedUrls(old(feeds)), isUrl);
        v.Some? ==>
          feeds == old(feeds) && Store() == old(Store()) &&
          loadState == old(loadState) && errorType == old(errorType) &&
          log == old(log) + Notify(old(formIsValid), false, FormIsValidChanged(false))
                          + Notify(old(formError), v, FormErrorChanged(v))
      ensures var v := ValidateLink(link, FeedUrls(old(feeds)), isUrl);
        v.None? && Load(response).Ok? ==>
          var parsed := Load(response).value;
          feeds == [Feed(parsed.feed.title, parsed.feed.description, link)] + old(feeds) &&
          Store() == Prepend(old(Store()), parsed.items) &&
          loadState == Idle && errorType == old(errorType) &&
          log == old(log) + Notify(old(formIsValid), true, FormIsValidChanged(true))
                          + Notify(old(formError), None, FormErrorChanged(None))
                          + Notify(old(loadState), Loading, LoadStateChanged(Loading))
                          + [FeedsChanged] + [PostsChanged] + [LoadStateChanged(Idle)]
      ensures var v := ValidateLink(link, FeedUrls(old(feeds)), isUrl);
        v.None? && Load(response).Err? ==>
          var t := GetErrorType(Load(response).error);
          feeds == old(feeds) && Store() == old(Store()) &&
          loadState == Failed && errorType == Some(t) &&
          log == old(log) + Notify(old(formIsValid), true, FormIsValidChanged(true))
                          + Notify(old(formError), None, FormErrorChanged(None))
                          + Notify(old(loadState), Loading, LoadStateChanged(Loading))
                          + [LoadStateChanged(Failed)] + Notify(old(errorType), Some(t), ErrorTypeChanged(t))
    {
      var existedUrls := FeedUrls(feeds);
      var v := ValidateLink(link, existedUrls, isUrl);
      if v.None? {
        SetForm(true, None);
        var loaded := Load(response);
        if old(FeedsValid()) && loaded.Ok? {
          AddValidatedKeepsUrlsValid(feeds, Feed(loaded.value.feed.title, loaded.value.feed.description, link), isUrl);
        }
        HandleAddFeed(link, loaded);
      } else {
        SetForm(false, v);
      }
    }
  }

  /** Once a link has been added, submitting it again is rejected as a
      duplicate. */
  lemma AddedUrlRejected(title: string, description: string, link: string, feeds: seq<Feed>, isUrl: string -> bool)
    requires isUrl(link)
    ensures ValidateLink(link, FeedUrls([Feed(title, description, link)] + feeds), isUrl) == Some(SameUrl)
  {
    assert FeedUrls([Feed(title, description, link)] + feeds)[0] == link;
  }
}
