/** The post bookkeeping behind the controllers of src/app.js, stated on values:
    how `updateRSS` picks the new items of one feed (lodash `union` followed by
    `differenceBy(..., 'link')`), how parsed items receive ids from lodash
    `uniqueId`, how one poll round folds the feeds' results into the post list,
    how `handleReadPost` records a read post, and how the click handler finds a
    post by id. The class in module `App` is proved against these functions. */
module Posts {
  import opened Wrappers
  import opened Parser

  /** The value of lodash's `uniqueId()`: the decimal string of a counter that is
      incremented before use, so the first id is 1. Distinct counters give
      distinct strings, so the number stands for the string. */
  type PostId = nat

  datatype Post = Post(id: PostId, title: string, description: string, link: string)

  /** The fields of a post that a parsed item also has. */
  function Strip(p: Post): ParsedItem {
    ParsedItem(p.title, p.description, p.link)
  }

  function StripIds(ps: seq<Post>): seq<ParsedItem> {
    seq(|ps|, i requires 0 <= i < |ps| => Strip(ps[i]))
  }

  function Links(ps: seq<Post>): set<string> {
    set p | p in ps :: p.link
  }

  function ItemLinks(xs: seq<ParsedItem>): set<string> {
    set x | x in xs :: x.link
  }

  function Ids(ps: seq<Post>): set<PostId> {
    set p | p in ps :: p.id
  }

  /** How many entries of `xs` carry the link `l`. */
  function CountLink(xs: seq<ParsedItem>, l: string): nat {
    if xs == [] then 0 else (if xs[0].link == l then 1 else 0) + CountLink(xs[1..], l)
  }

  // ---------------------------------------------------------------------------
  // New items of one feed

  /** lodash `differenceBy(xs, ys, 'link')`: the entries of `xs`, in order and
      with their repetitions, whose link is the link of no entry of `ys`. */
  function DifferenceByLink(xs: seq<ParsedItem>, ys: seq<Post>): (r: seq<ParsedItem>)
    ensures |r| <= |xs|
  {
    if xs == [] then []
    else
      var rest := DifferenceByLink(xs[1..], ys);
      if xs[0].link in Links(ys) then rest else [xs[0]] + rest
  }

  /** An entry is kept exactly when it is in `xs` and its link is new. */
  lemma {:induction false} DifferenceByLinkMembers(xs: seq<ParsedItem>, ys: seq<Post>)
    ensures forall x :: x in DifferenceByLink(xs, ys) <==> x in xs && x.link !in Links(ys)
  {
    if xs != [] {
      DifferenceByLinkMembers(xs[1..], ys);
      assert xs == [xs[0]] + xs[1..];
    }
  }

  /** Filtering commutes with concatenation, so the new items keep their
      parsed order. */
  lemma {:induction false} DifferenceByLinkAppend(a: seq<ParsedItem>, b: seq<ParsedItem>, ys: seq<Post>)
    ensures DifferenceByLink(a + b, ys) == DifferenceByLink(a, ys) + DifferenceByLink(b, ys)
  {
    if a == [] {
      assert a + b == b;
    } else {
      assert (a + b)[0] == a[0];
      assert (a + b)[1..] == a[1..] + b;
      DifferenceByLinkAppend(a[1..], b, ys);
    }
  }

  /** Entries whose links are all known already leave nothing behind. */
  lemma {:induction false} DifferenceByLinkAllKnown(xs: seq<ParsedItem>, ys: seq<Post>)
    requires forall i :: 0 <= i < |xs| ==> xs[i].link in Links(ys)
    ensures DifferenceByLink(xs, ys) == []
  {
    if xs != [] {
      DifferenceByLinkAllKnown(xs[1..], ys);
    }
  }

  /** `union(items, posts)`: the parsed items are objects created by this
      parse, so lodash's identity comparison finds no duplicate and the union
      is the items followed by the current posts. */
  function UnionWithPosts(items: seq<ParsedItem>, ps: seq<Post>): (r: seq<ParsedItem>)
    ensures |r| == |items| + |ps|
    ensures forall i :: 0 <= i < |items| ==> r[i] == items[i]
    ensures forall i :: 0 <= i < |ps| ==> r[|items| + i] == Strip(ps[i])
  {
    items + StripIds(ps)
  }

  /** `differenceBy(union(items, posts), posts, 'link')` removes every current
      post again, leaving exactly the parsed items whose link is new. */
  lemma UnionThenDifference(items: seq<ParsedItem>, ps: seq<Post>)
    ensures DifferenceByLink(UnionWithPosts(items, ps), ps) == DifferenceByLink(items, ps)
  {
    DifferenceByLinkAppend(items, StripIds(ps), ps);
    forall k | 0 <= k < |ps| ensures StripIds(ps)[k].link in Links(ps) {
      assert ps[k] in ps;
    }
    DifferenceByLinkAllKnown(StripIds(ps), ps);
    assert DifferenceByLink(items, ps) + [] == DifferenceByLink(items, ps);
  }

  /** Deduplication is only against the existing posts: every item of the batch
      whose link is new survives, including items that share that link. */
  lemma {:induction false} BatchDuplicatesKept(xs: seq<ParsedItem>, ys: seq<Post>, l: string)
    requires l !in Links(ys)
    ensures CountLink(DifferenceByLink(xs, ys), l) == CountLink(xs, l)
  {
    if xs != [] {
      BatchDuplicatesKept(xs[1..], ys, l);
      var rest := DifferenceByLink(xs[1..], ys);
      if xs[0].link !in Links(ys) {
        assert ([xs[0]] + rest)[1..] == rest;
      }
    }
  }

  // ---------------------------------------------------------------------------
  // Id assignment

  /** `xs.map((post) => { post.id = uniqueId(); return post; })` with the
      counter at `first - 1`. */
  function WithIds(xs: seq<ParsedItem>, first: PostId): (r: seq<Post>)
    ensures |r| == |xs|
  {
    if xs == [] then []
    else [Post(first, xs[0].title, xs[0].description, xs[0].link)] + WithIds(xs[1..], first + 1)
  }

  /** The i-th item gets id `first + i` and keeps its title, description and
      link. */
  lemma {:induction false} WithIdsSpec(xs: seq<ParsedItem>, first: PostId)
    ensures forall i :: 0 <= i < |xs| ==> WithIds(xs, first)[i].id == first + i && Strip(WithIds(xs, first)[i]) == xs[i]
  {
    if xs != [] {
      WithIdsSpec(xs[1..], first + 1);
    }
  }

  lemma WithIdsLinks(xs: seq<ParsedItem>, first: PostId)
    ensures Links(WithIds(xs, first)) == ItemLinks(xs)
  {
    var r := WithIds(xs, first);
    WithIdsSpec(xs, first);
    forall l | l in ItemLinks(xs) ensures l in Links(r) {
      var i :| 0 <= i < |xs| && xs[i].link == l;
      assert r[i] in r && r[i].link == l;
    }
    forall l | l in Links(r) ensures l in ItemLinks(xs) {
      var i :| 0 <= i < |r| && r[i].link == l;
      assert xs[i] in xs && Strip(r[i]).link == l;
    }
  }

  // ---------------------------------------------------------------------------
  // The post list and the id counter

  /** The posts of the application state together with the value of the
      `uniqueId` counter. */
  datatype PostsState = PostsState(posts: seq<Post>, nextId: nat)

  predicate IdsDistinct(ps: seq<Post>) {
    forall i, j :: 0 <= i < j < |ps| ==> ps[i].id != ps[j].id
  }

  /** Every post id was drawn from the counter, and no id is used twice. */
  predicate ValidPosts(s: PostsState) {
    IdsDistinct(s.posts) && forall p :: p in s.posts ==> 1 <= p.id <= s.nextId
  }

  /** `state.posts = [...newPosts, ...state.posts]` after the items were given
      ids by `uniqueId`: the items, with fresh ids, go before the current posts. */
  function Prepend(s: PostsState, items: seq<ParsedItem>): (r: PostsState)
    ensures |r.posts| == |s.posts| + |items| && r.nextId == s.nextId + |items|
  {
    PostsState(WithIds(items, s.nextId + 1) + s.posts, s.nextId + |items|)
  }

  /** Prepending draws fresh ids, so it keeps ids distinct and within the
      counter, and every post present before is still present. */
  lemma PrependValid(s: PostsState, items: seq<ParsedItem>)
    requires ValidPosts(s)
    ensures ValidPosts(Prepend(s, items))
    ensures Ids(s.posts) <= Ids(Prepend(s, items).posts)
  {
    var added := WithIds(items, s.nextId + 1);
    WithIdsSpec(items, s.nextId + 1);
    var r := Prepend(s, items);
    assert r.posts == added + s.posts;
    forall i, j | 0 <= i < j < |r.posts| ensures r.posts[i].id != r.posts[j].id {
      if j < |added| {
        assert r.posts[i] == added[i] && r.posts[j] == added[j];
      } else if i < |added| {
        assert r.posts[j] == s.posts[j - |added|];
        assert s.posts[j - |added|] in s.posts;
      } else {
        assert r.posts[i] == s.posts[i - |added|] && r.posts[j] == s.posts[j - |added|];
      }
    }
    forall p | p in r.posts ensures 1 <= p.id <= r.nextId {
      var k :| 0 <= k < |r.posts| && r.posts[k] == p;
      if k < |added| {
        assert p == added[k];
      } else {
        assert p == s.posts[k - |added|];
      }
    }
    forall id | id in Ids(s.posts) ensures id in Ids(r.posts) {
      var p :| p in s.posts && p.id == id;
      assert p in r.posts;
    }
  }

  /** The `.then` of one feed in `updateRSS` after a successful parse: the
      items whose link is new get fresh ids and go before the current posts. */
  function Merge(s: PostsState, items: seq<ParsedItem>): (r: PostsState)
    ensures |s.posts| <= |r.posts| <= |s.posts| + |items|
    ensures r.nextId + |s.posts| == s.nextId + |r.posts|
  {
    Prepend(s, DifferenceByLink(items, s.posts))
  }

  /** The new posts are exactly the parsed items with a new link, in parsed
      order, with consecutive fresh ids; the current posts follow, unchanged
      and in their order. */
  lemma MergeShape(s: PostsState, items: seq<ParsedItem>)
    ensures var r := Merge(s, items);
      var added := DifferenceByLink(items, s.posts);
      |r.posts| == |added| + |s.posts| &&
      r.posts[|added|..] == s.posts &&
      r.nextId == s.nextId + |added| &&
      forall i :: 0 <= i < |added| ==>
        r.posts[i].id == s.nextId + 1 + i && Strip(r.posts[i]) == added[i] && r.posts[i].link !in Links(s.posts)
  {
    var added := DifferenceByLink(items, s.posts);
    var w := WithIds(added, s.nextId + 1);
    var r := Merge(s, items);
    assert r.posts == w + s.posts;
    assert r.posts[|added|..] == s.posts;
    WithIdsSpec(added, s.nextId + 1);
    DifferenceByLinkMembers(items, s.posts);
    forall i | 0 <= i < |added|
      ensures r.posts[i].id == s.nextId + 1 + i && Strip(r.posts[i]) == added[i] && r.posts[i].link !in Links(s.posts)
    {
      assert r.posts[i] == w[i];
      assert added[i] in added;
    }
  }

  /** After a merge the links among the posts are the old ones and those of
      the parsed items. */
  lemma MergeLinks(s: PostsState, items: seq<ParsedItem>)
    ensures Links(Merge(s, items).posts) == Links(s.posts) + ItemLinks(items)
  {
    var newItems := DifferenceByLink(items, s.posts);
    var added := WithIds(newItems, s.nextId + 1);
    WithIdsLinks(newItems, s.nextId + 1);
    DifferenceByLinkMembers(items, s.posts);
    assert Links(added + s.posts) == Links(added) + Links(s.posts) by {
      forall l | l in Links(added + s.posts) ensures l in Links(added) + Links(s.posts) {
        var p :| p in added + s.posts && p.link == l;
      }
    }
    forall l | l in ItemLinks(items) ensures l in Links(s.posts) + ItemLinks(newItems) {
      var x :| x in items && x.link == l;
      if l !in Links(s.posts) {
        assert x in newItems;
      }
    }
  }

  /** When no parsed item has a new link, nothing is added and no id is drawn. */
  lemma MergeNothingNew(s: PostsState, items: seq<ParsedItem>)
    requires ItemLinks(items) <= Links(s.posts)
    ensures DifferenceByLink(items, s.posts) == []
    ensures Merge(s, items) == s
  {
    forall i | 0 <= i < |items| ensures items[i].link in Links(s.posts) {
      assert items[i] in items;
    }
    DifferenceByLinkAllKnown(items, s.posts);
    assert [] + s.posts == s.posts;
  }

  /** A merge draws fresh ids, so it keeps ids distinct and within the counter. */
  lemma MergeValid(s: PostsState, items: seq<ParsedItem>)
    requires ValidPosts(s)
    ensures ValidPosts(Merge(s, items))
    ensures Ids(s.posts) <= Ids(Merge(s, items).posts)
  {
    PrependValid(s, DifferenceByLink(items, s.posts));
  }

  /** Two feeds merged one after the other: the second adds no post whose link
      the first one just added. */
  lemma LaterMergeSkipsEarlierLinks(s: PostsState, a: seq<ParsedItem>, b: seq<ParsedItem>)
    ensures var s1 := Merge(s, a);
      var s2 := Merge(s1, b);
      forall i :: 0 <= i < |s2.posts| - |s1.posts| ==> s2.posts[i].link !in ItemLinks(a)
  {
    var s1 := Merge(s, a);
    MergeLinks(s, a);
    MergeShape(s1, b);
  }

  // ---------------------------------------------------------------------------
  // A poll round

  /** One feed's outcome in a round: the fetched document, or the failure that
      rejected the fetch. A failed fetch or parse adds nothing. */
  function PollStep(s: PostsState, outcome: Result<Document, Failure>): (r: PostsState)
    ensures |s.posts| <= |r.posts| && r.nextId + |s.posts| == s.nextId + |r.posts|
  {
    match outcome
    case Err(_) => s
    case Ok(doc) =>
      match ParseRSS(doc)
      case Err(_) => s
      case Ok(parsed) => Merge(s, parsed.items)
  }

  /** The links of the items of one feed's outcome; none when it failed. */
  function OutcomeLinks(outcome: Result<Document, Failure>): set<string> {
    match outcome
    case Err(_) => {}
    case Ok(doc) =>
      match ParseRSS(doc)
      case Err(_) => {}
      case Ok(parsed) => ItemLinks(parsed.items)
  }

  /** A round folds the feeds' outcomes in the order their handlers ran; each
      handler sees the posts added by the handlers before it. */
  function Round(s: PostsState, outcomes: seq<Result<Document, Failure>>): (r: PostsState)
    ensures |s.posts| <= |r.posts| && r.nextId + |s.posts| == s.nextId + |r.posts|
    decreases |outcomes|
  {
    if outcomes == [] then s
    else PollStep(Round(s, outcomes[..|outcomes| - 1]), outcomes[|outcomes| - 1])
  }

  function RoundLinksOf(outcomes: seq<Result<Document, Failure>>): set<string>
    decreases |outcomes|
  {
    if outcomes == [] then {}
    else RoundLinksOf(outcomes[..|outcomes| - 1]) + OutcomeLinks(outcomes[|outcomes| - 1])
  }

  lemma PollStepLinks(s: PostsState, outcome: Result<Document, Failure>)
    ensures Links(PollStep(s, outcome).posts) == Links(s.posts) + OutcomeLinks(outcome)
  {
    if outcome.Ok? && ParseRSS(outcome.value).Ok? {
      MergeLinks(s, ParseRSS(outcome.value).value.items);
    }
  }

  /** After a round the links among the posts are the old links plus the links
      of every feed that was fetched and parsed. */
  lemma {:induction false} RoundLinks(s: PostsState, outcomes: seq<Result<Document, Failure>>)
    ensures Links(Round(s, outcomes).posts) == Links(s.posts) + RoundLinksOf(outcomes)
    decreases |outcomes|
  {
    if outcomes != [] {
      var init := outcomes[..|outcomes| - 1];
      RoundLinks(s, init);
      PollStepLinks(Round(s, init), outcomes[|outcomes| - 1]);
    }
  }

  /** A round keeps ids distinct and drawn from the counter. */
  lemma {:induction false} RoundValid(s: PostsState, outcomes: seq<Result<Document, Failure>>)
    requires ValidPosts(s)
    ensures ValidPosts(Round(s, outcomes))
    decreases |outcomes|
  {
    if outcomes != [] {
      var init := outcomes[..|outcomes| - 1];
      RoundValid(s, init);
      var last := outcomes[|outcomes| - 1];
      if last.Ok? && ParseRSS(last.value).Ok? {
        MergeValid(Round(s, init), ParseRSS(last.value).value.items);
      }
    }
  }

  /** The posts present before a round are, after it, the tail of the list with
      their ids and relative order unchanged. */
  lemma {:induction false} RoundKeepsOldPosts(s: PostsState, outcomes: seq<Result<Document, Failure>>)
    ensures var r := Round(s, outcomes);
      |s.posts| <= |r.posts| && r.posts[|r.posts| - |s.posts|..] == s.posts && s.nextId <= r.nextId
    decreases |outcomes|
  {
    if outcomes != [] {
      var init := outcomes[..|outcomes| - 1];
      RoundKeepsOldPosts(s, init);
      var mid := Round(s, init);
      var last := outcomes[|outcomes| - 1];
      if last.Ok? && ParseRSS(last.value).Ok? {
        MergeShape(mid, ParseRSS(last.value).value.items);
      }
    }
  }

  /** Folding two batches of outcomes one after the other is folding their
      concatenation. */
  lemma {:induction false} RoundAppend(s: PostsState, a: seq<Result<Document, Failure>>, b: seq<Result<Document, Failure>>)
    ensures Round(s, a + b) == Round(Round(s, a), b)
    decreases |b|
  {
    if b == [] {
      assert a + b == a;
    } else {
      assert (a + b)[..|a + b| - 1] == a + b[..|b| - 1];
      assert (a + b)[|a + b| - 1] == b[|b| - 1];
      RoundAppend(s, a, b[..|b| - 1]);
    }
  }

  /** The links of two batches of outcomes are the links of each. */
  lemma {:induction false} RoundLinksOfAppend(a: seq<Result<Document, Failure>>, b: seq<Result<Document, Failure>>)
    ensures RoundLinksOf(a + b) == RoundLinksOf(a) + RoundLinksOf(b)
    decreases |b|
  {
    if b == [] {
      assert a + b == a;
    } else {
      assert (a + b)[..|a + b| - 1] == a + b[..|b| - 1];
      assert (a + b)[|a + b| - 1] == b[|b| - 1];
      RoundLinksOfAppend(a, b[..|b| - 1]);
    }
  }

  /** Within one round, a feed `y` whose handler runs after that of feed `x`,
      however many handlers ran in between, adds no post whose link `x`'s
      items carried: each handler reads the posts as they are when it runs. */
  lemma RoundNoLinkReadded(s: PostsState, pre: seq<Result<Document, Failure>>, x: Result<Document, Failure>,
                           mid: seq<Result<Document, Failure>>, y: Result<Document, Failure>)
    ensures var before := Round(s, pre + [x] + mid);
      var after := Round(s, pre + [x] + mid + [y]);
      forall i :: 0 <= i < |after.posts| - |before.posts| ==> after.posts[i].link !in OutcomeLinks(x)
  {
    var run := pre + [x] + mid;
    var before := Round(s, run);
    assert (run + [y])[..|run + [y]| - 1] == run;
    RoundLinks(s, run);
    RoundLinksOfAppend(pre + [x], mid);
    RoundLinksOfAppend(pre, [x]);
    assert [x][..0] == [];
    assert OutcomeLinks(x) <= Links(before.posts);
    if y.Ok? && ParseRSS(y.value).Ok? {
      MergeShape(before, ParseRSS(y.value).value.items);
    }
  }

  /** Failure isolation: a feed whose fetch or parse fails is simply skipped,
      and the feeds before and after it merge as if it were absent. */
  lemma FailedFeedSkipped(s: PostsState, a: seq<Result<Document, Failure>>, bad: Result<Document, Failure>, b: seq<Result<Document, Failure>>)
    requires bad.Err? || ParseRSS(bad.value).Err?
    ensures Round(s, a + [bad] + b) == Round(s, a + b)
  {
    RoundAppend(s, a + [bad], b);
    RoundAppend(s, a, [bad]);
    assert Round(Round(s, a), [bad]) == PollStep(Round(Round(s, a), []), bad);
    RoundAppend(s, a, b);
  }

  // ---------------------------------------------------------------------------
  // Read posts and the selected post

  predicate NoDuplicates(ids: seq<PostId>) {
    forall i, j :: 0 <= i < j < |ids| ==> ids[i] != ids[j]
  }

  /** `handleReadPost` on the list of read ids: the earlier entries stay as
      they are, `id` is present afterwards, nothing else is added, and an id is
      appended only when it was absent. */
  function MarkRead(ids: seq<PostId>, id: PostId): (r: seq<PostId>)
    ensures |ids| <= |r| <= |ids| + 1 && r[..|ids|] == ids
    ensures |r| == |ids| <==> id in ids
    ensures forall x :: x in r <==> x in ids || x == id
    ensures NoDuplicates(ids) ==> NoDuplicates(r)
  {
    if id in ids then ids else ids + [id]
  }

  /** Marking a post read twice is marking it once. */
  lemma MarkReadIdempotent(ids: seq<PostId>, id: PostId)
    ensures MarkRead(MarkRead(ids, id), id) == MarkRead(ids, id)
  {
  }

  /** `posts.find((el) => el.id === postId)`: a post with that id, the first
      one, or nothing when no post has it. */
  function FindPost(ps: seq<Post>, id: PostId): (r: Option<Post>)
    ensures r.None? <==> id !in Ids(ps)
    ensures r.Some? ==> r.value in ps && r.value.id == id
    ensures r.Some? && ps != [] && ps[0].id == id ==> r.value == ps[0]
  {
    if ps == [] then None
    else if ps[0].id == id then Some(ps[0])
    else
      assert ps == [ps[0]] + ps[1..];
      FindPost(ps[1..], id)
  }
}
