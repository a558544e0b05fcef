/**
 * The community feed: a list of posts that can be liked and unliked, and a
 * box whose text becomes a new post at the top of the feed.
 */
module Community {
  import opened Wrappers
  import Text

  datatype Author = Author(name: string, avatar: string)

  datatype Post = Post(
    id: int,
    user: Author,
    content: string,
    image: Option<string>,
    likes: int,
    comments: int,
    timestamp: string,
    liked: bool)

  // Long texts below are written as sums of short pieces, cut between words:
  // the verifier handles short string literals far more cheaply than long ones.
  function SeedPosts(): seq<Post>
  {
    [ Post(1, Author("Maria Garcia", "MG"),
        PesticideText(),
        Some(PesticideImage()),
        24, 8, "2 hours ago", false),
      Post(2, Author("John Smith", "JS"),
        CornText(),
        None, 12, 15, "5 hours ago", false),
      Post(3, Author("Sarah Johnson", "SJ"),
        SoilText(),
        None, 18, 6, "Yesterday", true),
      Post(4, Author("Raj Patel", "RP"),
        IrrigationText(),
        Some(IrrigationImage()),
        32, 9, "2 days ago", false) ]
  }

  function PesticideText(): string
  {
    "Just discovered " +
    "this amazing " +
    "natural pesticide " +
    "for my tomato " +
    "plants. It's a " +
    "mixture of neem oil " +
    "and dish soap " +
    "diluted in water. " +
    "It's been working " +
    "great for me. Has " +
    "anyone else tried " +
    "this?"
  }

  function CornText(): string
  {
    "My corn seedlings " +
    "are showing yellow " +
    "leaves with brown " +
    "spots. Has anyone " +
    "encountered this " +
    "before? Any advice " +
    "on what this might " +
    "be and how to treat " +
    "it?"
  }

  function SoilText(): string
  {
    "Just got my soil " +
    "test results back! " +
    "pH is 6.8, nitrogen " +
    "is a bit low but " +
    "phosphorus and " +
    "potassium look " +
    "good. Any " +
    "recommendations for " +
    "organic nitrogen " +
    "supplements?"
  }

  function IrrigationText(): string
  {
    "Check out my new " +
    "irrigation system! " +
    "It's saving me " +
    "hours of work every " +
    "week and ensuring " +
    "more consistent " +
    "watering."
  }

  function PesticideImage(): string
  {
    PhotoUrl("1471194402529-8e0f5a675de6", "2070")
  }

  function IrrigationImage(): string
  {
    PhotoUrl("1513425295881-74de37c4c00a", "2069")
  }

  /** The address of a stock photo, cropped to `width` pixels; both images share every other part. */
  function PhotoUrl(photo: string, width: string): string
  {
    "https://" +
    "images.unsplash.com" +
    "/photo-" + photo +
    "?ixlib=rb-4.0.3" +
    "&ixid=" + AppToken() +
    "&auto=format" +
    "&fit=crop" +
    "&w=" + width +
    "&q=80"
  }

  /** The photo host's opaque application token, cut at base64 group boundaries. */
  function AppToken(): string
  {
    "M3wxMjA3fDB8MHxwaG90" +
    "by1wYWdlfHx8fGVufDB8" +
    "fHx8fA%3D%3D"
  }

  // ---------------------------------------------------------------------------
  // Likes

  /** Liking an unliked post adds a like; liking a liked post takes it back. */
  function ToggleLike(p: Post): (r: Post)
    ensures r.liked == !p.liked
    ensures r.likes == p.likes + (if p.liked then -1 else 1)
    ensures r.(likes := p.likes, liked := p.liked) == p
  {
    p.(likes := if p.liked then p.likes - 1 else p.likes + 1, liked := !p.liked)
  }

  /** The likes from everybody else: the count without the user's own like. */
  function OthersLikes(p: Post): int
  {
    p.likes - (if p.liked then 1 else 0)
  }

  /** Toggling keeps the likes of everybody else. */
  lemma ToggleKeepsOthersLikes(p: Post)
    ensures OthersLikes(ToggleLike(p)) == OthersLikes(p)
  {
  }

  /** Toggling twice restores the post. */
  lemma ToggleTwice(p: Post)
    ensures ToggleLike(ToggleLike(p)) == p
  {
  }

  /** `handleLikePost(postId)` on the list: every post with the id is toggled, the rest are kept. */
  function LikeToggled(posts: seq<Post>, postId: int): (r: seq<Post>)
    ensures |r| == |posts|
    ensures forall i :: 0 <= i < |posts| && posts[i].id != postId ==> r[i] == posts[i]
    ensures forall i :: 0 <= i < |posts| && posts[i].id == postId ==> r[i] == ToggleLike(posts[i])
  {
    seq(|posts|, i requires 0 <= i < |posts| => if posts[i].id == postId then ToggleLike(posts[i]) else posts[i])
  }

  /** Liking the same post twice restores the feed. */
  lemma LikeTwice(posts: seq<Post>, postId: int)
    ensures LikeToggled(LikeToggled(posts, postId), postId) == posts
  {
    var once := LikeToggled(posts, postId);
    var twice := LikeToggled(once, postId);
    forall i | 0 <= i < |posts| ensures twice[i] == posts[i] {
      if posts[i].id == postId {
        ToggleTwice(posts[i]);
      }
    }
  }

  /** Liking an id no post has leaves the feed as it is. */
  lemma LikeUnknownId(posts: seq<Post>, postId: int)
    requires forall p :: p in posts ==> p.id != postId
    ensures LikeToggled(posts, postId) == posts
  {
    var r := LikeToggled(posts, postId);
    forall i | 0 <= i < |posts| ensures r[i] == posts[i] {
      assert posts[i] in posts;
    }
  }

  /** Liking keeps, post by post, the likes of everybody else and every other field. */
  lemma LikeKeepsOthersLikes(posts: seq<Post>, postId: int)
    ensures var r := LikeToggled(posts, postId);
      forall i :: 0 <= i < |posts| ==>
        && OthersLikes(r[i]) == OthersLikes(posts[i])
        && r[i].(likes := posts[i].likes, liked := posts[i].liked) == posts[i]
  {
  }

  // ---------------------------------------------------------------------------
  // New posts

  /** The post `handleSubmitPost` creates: by "You", with the text as typed, no likes or comments yet. */
  function NewPost(id: int, content: string): Post
  {
    Post(id, Author("You", "YO"), content, None, 0, 0, "Just now", false)
  }

  /** The state of the community page. */
  class Feed {
    var posts: seq<Post>
    var newPost: string

    constructor ()
      ensures posts == SeedPosts() && newPost == ""
    {
      newPost := "";
      posts := SeedPosts();
    }

    /** The text box's change handler. */
    method TypePost(text: string)
      modifies this`newPost
      ensures newPost == text
    {
      newPost := text;
    }

    /** `handleLikePost(postId)`. */
    method LikePost(postId: int)
      modifies this`posts
      ensures posts == LikeToggled(old(posts), postId)
    {
      posts := LikeToggled(posts, postId);
    }

    /**
     * `handleSubmitPost`, with `newId` the clock reading used as id: text
     * that is blank once trimmed is refused and nothing changes; otherwise
     * the untrimmed text becomes a new post at the top and the box is cleared.
     */
    method SubmitPost(newId: int) returns (accepted: bool)
      modifies this
      ensures accepted <==> !Text.IsBlank(old(newPost))
      ensures !accepted ==> posts == old(posts) && newPost == old(newPost)
      ensures accepted ==> posts == [NewPost(newId, old(newPost))] + old(posts) && newPost == ""
    {
      if Text.IsBlank(newPost) {
        return false;
      }
      var post := Post(newId, Author("You", "YO"), newPost, None, 0, 0, "Just now", false);
      posts := [post] + posts;
      newPost := "";
      accepted := true;
    }
  }
}
