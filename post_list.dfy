/**
 * The in-memory post list owned by `App` and handed to the admin panel
 * (`posts` / `setPosts`), and the three views the admin panel derives from it:
 * the list without one id, the title search and the three most recent posts.
 */
module PostList {
  import opened Types
  import opened Filters
  import opened Text

  /** The single list of posts, newest first. Every component that changes it holds this object. */
  class PostStore {
    var posts: seq<Post>

    constructor(initial: seq<Post>)
      ensures posts == initial
    {
      posts := initial;
    }

    /** `setPosts([newPost, ...posts])`. */
    method Prepend(p: Post)
      modifies this
      ensures posts == [p] + old(posts)
      ensures |posts| == |old(posts)| + 1 && posts[0] == p && posts[1..] == old(posts)
    {
      posts := [p] + posts;
    }

    /** `setPosts(posts.filter(p => p.id !== id))`. */
    method RemoveId(id: string)
      modifies this
      ensures posts == WithoutId(old(posts), id)
      ensures forall i :: 0 <= i < |posts| ==> posts[i].id != id
      ensures IsSubsequence(posts, old(posts))
    {
      FilterIsSubsequence(posts, OtherId(id));
      posts := WithoutId(posts, id);
    }
  }

  // ------------------------------------------------------------------ delete

  function OtherId(id: string): Post -> bool
  {
    (p: Post) => p.id != id
  }

  /** The list left after deleting every post whose id is `id`: no survivor carries it, order is kept. */
  function WithoutId(s: seq<Post>, id: string): (r: seq<Post>)
    ensures forall i :: 0 <= i < |r| ==> r[i].id != id
    ensures IsSubsequence(r, s)
  {
    FilterIsSubsequence(s, OtherId(id));
    Filter(s, OtherId(id))
  }

  /** No post carrying the deleted id survives, and ids are not assumed unique. */
  lemma DeleteRemovesEveryMatch(s: seq<Post>, id: string, p: Post)
    requires p.id == id
    ensures p !in WithoutId(s, id)
  {
    FilterMember(s, OtherId(id), p);
  }

  /** Every other post survives unchanged, as many times as it was there. */
  lemma DeleteKeepsOthers(s: seq<Post>, id: string, p: Post)
    requires p.id != id
    ensures multiset(WithoutId(s, id))[p] == multiset(s)[p]
  {
    FilterCount(s, OtherId(id), p);
  }

  /** The survivors keep their relative order: deleting from a concatenation deletes from each part. */
  lemma DeleteKeepsOrder(a: seq<Post>, b: seq<Post>, id: string)
    ensures WithoutId(a + b, id) == WithoutId(a, id) + WithoutId(b, id)
    ensures IsSubsequence(WithoutId(a + b, id), a + b)
  {
    FilterAppend(a, b, OtherId(id));
    FilterIsSubsequence(a + b, OtherId(id));
  }

  /** Deleting an id no post carries leaves the list equal. */
  lemma DeleteAbsentId(s: seq<Post>, id: string)
    requires forall i :: 0 <= i < |s| ==> s[i].id != id
    ensures WithoutId(s, id) == s
  {
    FilterKeepsAll(s, OtherId(id));
  }

  /** Deleting the id of the post just prepended, when no older post shares it, undoes the prepend. */
  lemma DeleteUndoesPrepend(p: Post, s: seq<Post>)
    requires forall i :: 0 <= i < |s| ==> s[i].id != p.id
    ensures WithoutId([p] + s, p.id) == s
  {
    FilterAppend([p], s, OtherId(p.id));
    FilterKeepsAll(s, OtherId(p.id));
  }

  // ------------------------------------------------------------------ search

  /** `post.title.toLowerCase().includes(term.toLowerCase())`, with the case mapping `lower` left abstract. */
  function TitleHas(term: string, lower: string -> string): Post -> bool
  {
    (p: Post) => Includes(lower(p.title), lower(term))
  }

  /** The admin panel's `filteredPosts`: only matching posts, in list order. */
  function MatchingTitle(s: seq<Post>, term: string, lower: string -> string): (r: seq<Post>)
    ensures forall i :: 0 <= i < |r| ==> Includes(lower(r[i].title), lower(term))
    ensures IsSubsequence(r, s)
  {
    FilterIsSubsequence(s, TitleHas(term, lower));
    Filter(s, TitleHas(term, lower))
  }

  /** A post is listed exactly when it is in the list and its lowered title contains the lowered term. */
  lemma SearchFinds(s: seq<Post>, term: string, lower: string -> string, p: Post)
    ensures p in MatchingTitle(s, term, lower) <==>
            p in s && exists i :: OccursAt(lower(p.title), lower(term), i)
  {
    FilterMember(s, TitleHas(term, lower), p);
    IncludesIffOccurs(lower(p.title), lower(term));
  }

  /** The search result is an order-preserving sublist of the posts. */
  lemma SearchKeepsOrder(s: seq<Post>, term: string, lower: string -> string)
    ensures IsSubsequence(MatchingTitle(s, term, lower), s)
  {
    FilterIsSubsequence(s, TitleHas(term, lower));
  }

  /** An empty search term lists every post (lowercasing keeps the empty string empty). */
  lemma EmptySearchListsAll(s: seq<Post>, lower: string -> string)
    requires lower([]) == []
    ensures MatchingTitle(s, [], lower) == s
  {
    forall i | 0 <= i < |s| ensures TitleHas([], lower)(s[i]) {
      IncludesEmpty(lower(s[i].title));
    }
    FilterKeepsAll(s, TitleHas([], lower));
  }

  // ------------------------------------------------------------------ recent

  /** `posts.slice(0, 3)`: the dashboard's recently added posts. */
  function Recent(s: seq<Post>): (r: seq<Post>)
    ensures r <= s
    ensures |r| == if |s| < 3 then |s| else 3
  {
    if |s| < 3 then s else s[..3]
  }

  /** A newly prepended post heads the recent list, followed by the older recent posts less the last one. */
  lemma RecentAfterPrepend(p: Post, s: seq<Post>)
    ensures Recent([p] + s) == [p] + Recent(s)[..|Recent([p] + s)| - 1]
  {
    var r := Recent([p] + s);
    assert r[1..] == Recent(s)[..|r| - 1];
  }
}
