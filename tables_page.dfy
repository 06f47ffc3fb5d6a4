/** The data-tables page: the free-text search over the engagement and
    follower records, and the choice between the loading skeleton, the
    load-error view and the two tables. */
module TablesPage {
  import opened Text

  /** An engagement record, read-only on this page. */
  datatype Post = Post(
    id: string, date: string, platform: string, content: string,
    likes: int, comments: int, shares: int, reach: int)

  /** A follower-growth record, read-only on this page. */
  datatype Follower = Follower(
    id: string, date: string, platform: string,
    followers: int, newFollowers: int, unfollows: int, netGrowth: int)

  /** A post is kept when its content or platform contains the search term
      ignoring case, or its date contains the term as typed. */
  predicate PostMatches(post: Post, term: string): (b: bool)
    ensures term == "" ==> b
  {
    IncludesEmpty(post.date);
    || Includes(Lower(post.content), Lower(term))
    || Includes(Lower(post.platform), Lower(term))
    || Includes(post.date, term)
  }

  /** A follower record is kept when its platform contains the search term
      ignoring case, or its date contains the term as typed. */
  predicate FollowerMatches(follower: Follower, term: string): (b: bool)
    ensures term == "" ==> b
  {
    IncludesEmpty(follower.date);
    || Includes(Lower(follower.platform), Lower(term))
    || Includes(follower.date, term)
  }

  /** `records.filter(r => matches(r, term))`: the records that match, in
      their original order, each as often as it occurs in `records`. */
  function Search<T(!new)>(records: seq<T>, term: string, matches: (T, string) -> bool): (kept: seq<T>)
    ensures |kept| <= |records|
    ensures forall x :: x in kept ==> matches(x, term)
    ensures forall x :: multiset(kept)[x] == if matches(x, term) then multiset(records)[x] else 0
  {
    if records == [] then []
    else
      var rest := Search(records[1..], term, matches);
      assert records == [records[0]] + records[1..];
      if matches(records[0], term) then [records[0]] + rest else rest
  }

  /** `a` is `b` with some elements left out, the others in their order. */
  ghost predicate IsSubsequence<T>(a: seq<T>, b: seq<T>)
    decreases |b|
  {
    || a == []
    || (b != [] && ((a[0] == b[0] && IsSubsequence(a[1..], b[1..])) || IsSubsequence(a, b[1..])))
  }

  /** The search keeps the original order. */
  lemma {:induction false} SearchIsSubsequence<T(!new)>(records: seq<T>, term: string, matches: (T, string) -> bool)
    ensures IsSubsequence(Search(records, term, matches), records)
  {
    if records != [] {
      SearchIsSubsequence(records[1..], term, matches);
    }
  }

  /** A record is kept exactly when it is one of the records and matches. */
  lemma SearchMembership<T(!new)>(records: seq<T>, term: string, matches: (T, string) -> bool, x: T)
    ensures x in Search(records, term, matches) <==> x in records && matches(x, term)
  {
    var kept := Search(records, term, matches);
    assert x in kept <==> multiset(kept)[x] > 0;
    assert x in records <==> multiset(records)[x] > 0;
  }

  /** Searching the result again with the same term changes nothing. */
  lemma {:induction false} SearchIdempotent<T(!new)>(records: seq<T>, term: string, matches: (T, string) -> bool)
    ensures Search(Search(records, term, matches), term, matches) == Search(records, term, matches)
  {
    if records != [] {
      SearchIdempotent(records[1..], term, matches);
      var rest := Search(records[1..], term, matches);
      if matches(records[0], term) {
        assert ([records[0]] + rest)[1..] == rest;
      }
    }
  }

  /** When every record matches, the search returns the list unchanged. */
  lemma {:induction false} SearchKeepsAll<T(!new)>(records: seq<T>, term: string, matches: (T, string) -> bool)
    requires forall k :: 0 <= k < |records| ==> matches(records[k], term)
    ensures Search(records, term, matches) == records
  {
    if records != [] {
      SearchKeepsAll(records[1..], term, matches);
      assert records == [records[0]] + records[1..];
    }
  }

  /** When no record matches, the search returns nothing, and conversely. */
  lemma SearchEmpty<T(!new)>(records: seq<T>, term: string, matches: (T, string) -> bool)
    ensures Search(records, term, matches) == []
            <==> forall k :: 0 <= k < |records| ==> !matches(records[k], term)
  {
    var kept := Search(records, term, matches);
    if kept == [] {
      forall k | 0 <= k < |records| ensures !matches(records[k], term) {
        SearchMembership(records, term, matches, records[k]);
      }
    } else {
      SearchMembership(records, term, matches, kept[0]);
    }
  }

  /** The engagement records the search keeps: only matching ones, never more than there were. */
  function FilteredPosts(posts: seq<Post>, term: string): (kept: seq<Post>)
    ensures |kept| <= |posts|
    ensures forall p :: p in kept ==> p in posts && PostMatches(p, term)
  {
    Search(posts, term, PostMatches)
  }

  /** The follower records the search keeps: only matching ones, never more than there were. */
  function FilteredFollowers(followers: seq<Follower>, term: string): (kept: seq<Follower>)
    ensures |kept| <= |followers|
    ensures forall f :: f in kept ==> f in followers && FollowerMatches(f, term)
  {
    Search(followers, term, FollowerMatches)
  }

  /** Which posts and follower records the search keeps, stated field by field. */
  lemma KeptRecords(posts: seq<Post>, followers: seq<Follower>, term: string, p: Post, f: Follower)
    ensures p in FilteredPosts(posts, term)
            <==> p in posts && (|| IsSubstring(Lower(term), Lower(p.content))
                                || IsSubstring(Lower(term), Lower(p.platform))
                                || IsSubstring(term, p.date))
    ensures f in FilteredFollowers(followers, term)
            <==> f in followers && (IsSubstring(Lower(term), Lower(f.platform)) || IsSubstring(term, f.date))
  {
    SearchMembership(posts, term, PostMatches, p);
    SearchMembership(followers, term, FollowerMatches, f);
  }

  /** An empty search term keeps every record, in the original order. */
  lemma EmptyTermKeepsAll(posts: seq<Post>, followers: seq<Follower>)
    ensures FilteredPosts(posts, "") == posts
    ensures FilteredFollowers(followers, "") == followers
  {
    SearchKeepsAll(posts, "", PostMatches);
    SearchKeepsAll(followers, "", FollowerMatches);
  }

  /** Both searches keep the original order, and searching their results
      again with the same term gives the same results. */
  lemma FilteringIsStable(posts: seq<Post>, followers: seq<Follower>, term: string)
    ensures IsSubsequence(FilteredPosts(posts, term), posts)
    ensures IsSubsequence(FilteredFollowers(followers, term), followers)
    ensures FilteredPosts(FilteredPosts(posts, term), term) == FilteredPosts(posts, term)
    ensures FilteredFollowers(FilteredFollowers(followers, term), term) == FilteredFollowers(followers, term)
  {
    SearchIsSubsequence(posts, term, PostMatches);
    SearchIsSubsequence(followers, term, FollowerMatches);
    SearchIdempotent(posts, term, PostMatches);
    SearchIdempotent(followers, term, FollowerMatches);
  }

  /** Both tables have seven columns. */
  const COLUMN_COUNT := 7
  const NO_POSTS := "No posts found"
  const NO_FOLLOWERS := "No follower data found"

  /** A table body: one placeholder cell spanning the columns, or one row per record. */
  datatype Body<T> = Placeholder(colSpan: nat, text: string) | Rows(records: seq<T>)

  /** What the page shows. */
  datatype View =
    | Skeleton
    | LoadFailed(message: string)
    | Tables(postBody: Body<Post>, followerBody: Body<Follower>)

  function TableBody<T>(kept: seq<T>, emptyText: string): Body<T> {
    if |kept| == 0 then Placeholder(COLUMN_COUNT, emptyText) else Rows(kept)
  }

  function RowCount<T>(body: Body<T>): nat {
    match body
    case Placeholder(_, _) => 1
    case Rows(records) => |records|
  }

  /** The page for a given state of the data source (`error` is `""` when
      there is none, as `null`, `undefined` and `""` are all falsy). */
  function Render(isLoading: bool, error: string, posts: seq<Post>, followers: seq<Follower>, term: string): (v: View)
    ensures v.Tables? ==> RowCount(v.postBody) >= 1 && RowCount(v.followerBody) >= 1
  {
    if isLoading then Skeleton
    else if error != "" then LoadFailed(error)
    else Tables(TableBody(FilteredPosts(posts, term), NO_POSTS),
                TableBody(FilteredFollowers(followers, term), NO_FOLLOWERS))
  }

  /** Loading wins over an error, and an error over the tables. */
  lemma ViewPrecedence(isLoading: bool, error: string, posts: seq<Post>, followers: seq<Follower>, term: string)
    ensures Render(isLoading, error, posts, followers, term).Skeleton? <==> isLoading
    ensures Render(isLoading, error, posts, followers, term) == LoadFailed(error) <==> !isLoading && error != ""
    ensures Render(isLoading, error, posts, followers, term).Tables? <==> !isLoading && error == ""
  {
  }

  /** With the data loaded, the engagement table shows the placeholder
      exactly when no post matches, and otherwise one row per kept post. */
  lemma PostTableRows(posts: seq<Post>, followers: seq<Follower>, term: string)
    ensures var body := Render(false, "", posts, followers, term).postBody;
            && (body.Placeholder? <==> forall k :: 0 <= k < |posts| ==> !PostMatches(posts[k], term))
            && (body.Placeholder? ==> body.colSpan == COLUMN_COUNT && body.text == NO_POSTS)
            && (body.Rows? ==> body.records == FilteredPosts(posts, term))
            && RowCount(body) == if |FilteredPosts(posts, term)| == 0 then 1 else |FilteredPosts(posts, term)|
  {
    SearchEmpty(posts, term, PostMatches);
  }

  /** With the data loaded, the follower table shows the placeholder exactly
      when no follower record matches, and otherwise one row per kept record. */
  lemma FollowerTableRows(posts: seq<Post>, followers: seq<Follower>, term: string)
    ensures var body := Render(false, "", posts, followers, term).followerBody;
            && (body.Placeholder? <==> forall k :: 0 <= k < |followers| ==> !FollowerMatches(followers[k], term))
            && (body.Placeholder? ==> body.colSpan == COLUMN_COUNT && body.text == NO_FOLLOWERS)
            && (body.Rows? ==> body.records == FilteredFollowers(followers, term))
            && RowCount(body) == if |FilteredFollowers(followers, term)| == 0 then 1 else |FilteredFollowers(followers, term)|
  {
    SearchEmpty(followers, term, FollowerMatches);
  }
}
