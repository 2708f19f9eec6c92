/**
 * The home feed: the load of posts and stories, the like button with its
 * optimistic counter and heart icon, and the comment sheet. Each remote call
 * is an input (the fetched list, or whether the write returned normally);
 * each handler is one atomic step on the screen state.
 */
module HomeScreen {
  import opened DataModels
  import Session

  /** `posts.map { if (it.id == id) it.copy(like_count = n) else it }`. */
  function WithLikeCount(posts: seq<Post>, id: int, n: Int32): (r: seq<Post>)
    ensures |r| == |posts|
    ensures forall i :: 0 <= i < |posts| && posts[i].id != id ==> r[i] == posts[i]
    ensures forall i :: 0 <= i < |posts| && posts[i].id == id ==> r[i] == posts[i].(likeCount := n)
  {
    seq(|posts|, i requires 0 <= i < |posts| => if posts[i].id == id then posts[i].(likeCount := n) else posts[i])
  }

  /** Setting a count keeps every post's identity and position. */
  lemma WithLikeCountKeepsIds(posts: seq<Post>, id: int, n: Int32)
    ensures var r := WithLikeCount(posts, id, n);
      forall i :: 0 <= i < |posts| ==> r[i].id == posts[i].id && r[i].(likeCount := 0) == posts[i].(likeCount := 0)
  {
  }

  /** Of two counts written for one post, the later one wins. */
  lemma WithLikeCountLastWins(posts: seq<Post>, id: int, n1: Int32, n2: Int32)
    ensures WithLikeCount(WithLikeCount(posts, id, n1), id, n2) == WithLikeCount(posts, id, n2)
  {
  }

  /**
   * Every click on the heart increments the shown count, the second one
   * ("unlike") included: two clicks on the same card, each reading the
   * count the card then shows, add two.
   */
  lemma TwoClicksAddTwo(posts: seq<Post>, i: nat)
    requires i < |posts| && posts[i].likeCount < Int32Max - 1
    ensures var once := WithLikeCount(posts, posts[i].id, WrappingInc(posts[i].likeCount));
      var twice := WithLikeCount(once, once[i].id, WrappingInc(once[i].likeCount));
      twice[i].likeCount as int == posts[i].likeCount as int + 2
  {
  }

  /** The heart of one post card: a local flag the card remembers, false at first. */
  class PostCard {
    var isLiked: bool

    constructor ()
      ensures !isLiked
    {
      isLiked := false;
    }
  }

  /** The home screen's state. */
  class HomeScreen {
    var posts: seq<Post>
    var stories: seq<Story>
    var isLoading: bool

    constructor ()
      ensures posts == [] && stories == [] && isLoading
    {
      posts := [];
      stories := [];
      isLoading := true;
    }

    /**
     * The launch effect. `fetchedPosts` and `fetchedStories` are the two
     * queries' results (newest first) or None when a query threw. Posts are
     * assigned before stories are fetched, so a failed stories query keeps
     * the new posts, and a failed posts query skips the stories query.
     * Loading ends either way.
     */
    method Load(fetchedPosts: Option<seq<Post>>, fetchedStories: Option<seq<Story>>)
      modifies this
      ensures !isLoading
      ensures posts == if fetchedPosts.Some? then fetchedPosts.value else old(posts)
      ensures stories == if fetchedPosts.Some? && fetchedStories.Some? then fetchedStories.value else old(stories)
      ensures fetchedPosts.Some? ==> (ShowsEmptyFeed() <==> fetchedPosts.value == [])
      ensures fetchedPosts == None ==> (ShowsEmptyFeed() <==> old(posts) == [])
    {
      if fetchedPosts.Some? {
        posts := fetchedPosts.value;
        if fetchedStories.Some? {
          stories := fetchedStories.value;
        }
      }
      isLoading := false;
    }

    /** "No posts yet" is shown once loading has ended with an empty feed. */
    predicate ShowsEmptyFeed()
      reads this
    {
      !isLoading && posts == []
    }

    /**
     * The like callback of the card showing `clicked`: the new count is the
     * card's count plus one (a 32-bit `Int`), written into every post with
     * that id before the remote update runs. Whatever the update does
     * (`updateOk`), nothing is rolled back.
     */
    method OnLikeClick(clicked: Post, updateOk: bool)
      modifies this`posts
      ensures posts == WithLikeCount(old(posts), clicked.id, WrappingInc(clicked.likeCount))
      ensures ShowsEmptyFeed() == old(ShowsEmptyFeed())
    {
      var newCount := WrappingInc(clicked.likeCount);
      posts := WithLikeCount(posts, clicked.id, newCount);
    }

    /** A click on a card's heart: the icon flips, then the like callback runs. */
    method OnHeartClick(card: PostCard, clicked: Post, updateOk: bool)
      modifies this`posts, card
      ensures card.isLiked == !old(card.isLiked)
      ensures posts == WithLikeCount(old(posts), clicked.id, WrappingInc(clicked.likeCount))
    {
      card.isLiked := !card.isLiked;
      OnLikeClick(clicked, updateOk);
    }
  }

  /** The comment sheet of one post: its comments and the text being typed. */
  class CommentsSection {
    const postId: int
    var comments: seq<Comment>
    var draft: string

    constructor (postId: int)
      ensures this.postId == postId && comments == [] && draft == ""
    {
      this.postId := postId;
      comments := [];
      draft := "";
    }

    /** The sheet's launch effect: `fetched` is the post's comments, newest first, or None when the query threw. */
    method Load(fetched: Option<seq<Comment>>)
      modifies this`comments
      ensures comments == if fetched.Some? then fetched.value else old(comments)
    {
      if fetched.Some? {
        comments := fetched.value;
      }
    }

    method EditDraft(text: string)
      modifies this`draft
      ensures draft == text
    {
      draft := text;
    }

    /**
     * The send button. With an empty draft nothing happens. Otherwise a
     * comment by the signed-in user (`email` is their address, if any) is
     * handed to the insert; once it returns normally the comment is put at
     * the top of the list and the draft is cleared.
     */
    method Send(email: Option<string>, insertOk: bool) returns (attempted: Option<Comment>)
      modifies this`comments, this`draft
      ensures old(draft) == "" ==> attempted == None
      ensures old(draft) != "" ==> attempted == Some(NewComment(postId, Session.CommentAuthor(email), old(draft)))
      ensures comments == if old(draft) != "" && insertOk then [attempted.value] + old(comments) else old(comments)
      ensures draft == if old(draft) != "" && insertOk then "" else old(draft)
    {
      if draft == "" {
        return None;
      }
      var c := NewComment(postId, Session.CommentAuthor(email), draft);
      attempted := Some(c);
      if insertOk {
        comments := [c] + comments;
        draft := "";
      }
    }
  }
}
