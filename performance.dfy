/** The members' activity feed (src/pages/Performance.jsx): posts with a like
    toggle and a comment thread, filtered by text and by the author's fraksi
    and jabatan. */
module Performance {
  import opened Wrappers
  import opened Text
  import opened Seqs
  import opened Records
  import Members

  datatype Comment = Comment(id: int, author: string, text: string)

  /** A post as the fixture holds it; `comments` may be absent. */
  datatype RawPost = RawPost(
    id: int,
    memberId: int,
    title: string,
    content: string,
    image: string,
    date: string,
    likes: int,
    comments: Option<seq<Comment>>)

  /** A post as the page keeps it: with its like flag and its own comments. */
  datatype Post = Post(
    id: int,
    memberId: int,
    title: string,
    content: string,
    image: string,
    date: string,
    likes: int,
    liked: bool,
    comments: seq<Comment>)

  /** Who a comment typed on this page is attributed to. */
  const Anonymous: string := "Warga (Anonim)"

  /** How many characters of a post's content the feed shows. */
  const ContentLimit: nat := 220

  /** A post as it enters the page: not liked, and with its comments, or none
      when the fixture has none; every other field as in the fixture. */
  function InitPost(p: RawPost): (q: Post)
    ensures !q.liked
    ensures p.comments.None? ==> q.comments == []
    ensures p.comments.Some? ==> q.comments == p.comments.value
    ensures q.id == p.id && q.memberId == p.memberId && q.title == p.title && q.content == p.content
    ensures q.image == p.image && q.date == p.date && q.likes == p.likes
  {
    Post(p.id, p.memberId, p.title, p.content, p.image, p.date, p.likes, false, p.comments.GetOr([]))
  }

  /** The initial `posts`: every fixture post, in order, through `InitPost`. */
  function InitPosts(raw: seq<RawPost>): (r: seq<Post>)
    ensures |r| == |raw|
    ensures forall k :: 0 <= k < |raw| ==> r[k] == InitPost(raw[k])
  {
    if raw == [] then [] else [InitPost(raw[0])] + InitPosts(raw[1..])
  }

  /** Liking or unliking one post: the flag flips and the counter moves one
      up (it was not liked) or one down (it was). */
  function Toggle(p: Post): (q: Post)
    ensures q.liked == !p.liked
    ensures q.likes == if p.liked then p.likes - 1 else p.likes + 1
    ensures q.(liked := p.liked, likes := p.likes) == p
  {
    p.(liked := !p.liked, likes := if p.liked then p.likes - 1 else p.likes + 1)
  }

  /** Two toggles give the post back. */
  lemma ToggleTwice(p: Post)
    ensures Toggle(Toggle(p)) == p
  {
  }

  /** The likes of everybody else: the counter without this page's own like.
      Toggling never changes it. */
  function OthersLikes(p: Post): int {
    if p.liked then p.likes - 1 else p.likes
  }

  lemma ToggleKeepsOthersLikes(p: Post)
    ensures OthersLikes(Toggle(p)) == OthersLikes(p)
  {
  }

  /** `toggleLike`: the posts with that id toggled, every other post as it was,
      same length and order. */
  function ToggleLikeIn(posts: seq<Post>, postId: int): (r: seq<Post>)
    ensures |r| == |posts|
    ensures forall k :: 0 <= k < |posts| ==> r[k] == if posts[k].id == postId then Toggle(posts[k]) else posts[k]
  {
    if posts == [] then []
    else [if posts[0].id == postId then Toggle(posts[0]) else posts[0]] + ToggleLikeIn(posts[1..], postId)
  }

  /** Pressing the like button of a post twice restores the whole feed. */
  lemma ToggleLikeInTwice(posts: seq<Post>, postId: int)
    ensures ToggleLikeIn(ToggleLikeIn(posts, postId), postId) == posts
  {
    var once := ToggleLikeIn(posts, postId);
    var twice := ToggleLikeIn(once, postId);
    forall k | 0 <= k < |posts| ensures twice[k] == posts[k] {
      ToggleTwice(posts[k]);
    }
  }

  /** `addComment` on the feed: `c` appended to the comments of the posts
      with that id, every other post as it was. */
  function AddCommentTo(posts: seq<Post>, postId: int, c: Comment): (r: seq<Post>)
    ensures |r| == |posts|
    ensures forall k :: 0 <= k < |posts| ==>
      r[k] == if posts[k].id == postId then posts[k].(comments := posts[k].comments + [c]) else posts[k]
  {
    if posts == [] then []
    else
      [if posts[0].id == postId then posts[0].(comments := posts[0].comments + [c]) else posts[0]]
      + AddCommentTo(posts[1..], postId, c)
  }

  /** The text typed for a post, `""` when nothing was typed. */
  function InputFor(inputs: map<int, string>, postId: int): string {
    if postId in inputs then inputs[postId] else ""
  }

  /** Position `k` holds the first member with that id. */
  predicate FirstWithId(members: seq<Member>, k: int, id: int) {
    0 <= k < |members| && members[k].id == id && forall j :: 0 <= j < k ==> members[j].id != id
  }

  /** `getMember`: the first member with that id, or None. */
  function GetMember(members: seq<Member>, id: int): (r: Option<Member>)
    ensures r.None? <==> forall k :: 0 <= k < |members| ==> members[k].id != id
    ensures r.Some? ==> exists k :: FirstWithId(members, k, id) && members[k] == r.value
  {
    if members == [] then None
    else if members[0].id == id then
      assert FirstWithId(members, 0, id);
      Some(members[0])
    else
      var r := GetMember(members[1..], id);
      assert r.Some? ==> exists k :: FirstWithId(members, k, id) && members[k] == r.value by {
        if r.Some? {
          var k :| FirstWithId(members[1..], k, id) && members[1..][k] == r.value;
          assert members[k + 1] == r.value;
          forall j | 0 <= j < k + 1 ensures members[j].id != id {
            if j > 0 {
              assert members[j] == members[1..][j - 1];
            }
          }
          assert FirstWithId(members, k + 1, id);
        }
      }
      assert r.None? ==> forall k :: 0 <= k < |members| ==> members[k].id != id by {
        if r.None? {
          forall k | 0 < k < |members| ensures members[k].id != id {
            assert members[k] == members[1..][k - 1];
          }
        }
      }
      r
  }

  /** A post passes the feed's filters: the search text occurs, ignoring
      case, in its title, its content or its author's name, and each of the
      fraksi and jabatan filters is "All" or equals the author's value. */
  predicate PostMatches(members: seq<Member>, post: Post, search: string, filterFraksi: string, filterJabatan: string) {
    var m := GetMember(members, post.memberId);
    && (IncludesIgnoreCase(post.title, search) || IncludesIgnoreCase(post.content, search)
        || (m.Some? && IncludesIgnoreCase(m.value.nama, search)))
    && (filterFraksi == All || (m.Some? && m.value.fraksi == filterFraksi))
    && (filterJabatan == All || (m.Some? && m.value.jabatan == filterJabatan))
  }

  /** `filteredPosts`: the posts that pass, in feed order. */
  function FilteredPosts(members: seq<Member>, posts: seq<Post>, search: string, filterFraksi: string, filterJabatan: string): (r: seq<Post>)
    ensures IsSubsequence(r, posts)
    ensures forall p :: p in r <==> p in posts && PostMatches(members, p, search, filterFraksi, filterJabatan)
    ensures forall p :: multiset(r)[p] == if PostMatches(members, p, search, filterFraksi, filterJabatan) then multiset(posts)[p] else 0
  {
    Filter(p => PostMatches(members, p, search, filterFraksi, filterJabatan), posts)
  }

  /** A post whose author is not among the members is hidden as soon as the
      fraksi or the jabatan filter is set. */
  lemma OrphanHiddenWhenFiltered(members: seq<Member>, posts: seq<Post>, search: string, filterFraksi: string, filterJabatan: string, p: Post)
    requires forall k :: 0 <= k < |members| ==> members[k].id != p.memberId
    requires filterFraksi != All || filterJabatan != All
    ensures p !in FilteredPosts(members, posts, search, filterFraksi, filterJabatan)
  {
  }

  /** With an empty search and both filters at "All", the whole feed shows. */
  lemma NoFilterKeepsAll(members: seq<Member>, posts: seq<Post>)
    ensures FilteredPosts(members, posts, "", All, All) == posts
  {
    forall k | 0 <= k < |posts| ensures PostMatches(members, posts[k], "", All, All) {
      EmptyQueryMatches(posts[k].title);
    }
    FilterAll(p => PostMatches(members, p, "", All, All), posts);
  }

  /** What the feed shows of a post's content. */
  function ShownContent(p: Post): (s: string)
    ensures |p.content| <= ContentLimit ==> s == p.content
    ensures |p.content| > ContentLimit ==> s == p.content[..ContentLimit] + "..."
  {
    Truncate(p.content, ContentLimit)
  }

  class PerformancePage {
    const members: seq<Member>
    var posts: seq<Post>
    var openCommentsFor: Option<int>
    var commentInputs: map<int, string>
    var search: string
    var filterFraksi: string
    var filterJabatan: string

    constructor (raw: seq<RawPost>, memberList: seq<Member>)
      ensures members == memberList && posts == InitPosts(raw)
      ensures openCommentsFor == None && commentInputs == map[]
      ensures search == "" && filterFraksi == All && filterJabatan == All
    {
      members := memberList;
      posts := InitPosts(raw);
      openCommentsFor := None;
      commentInputs := map[];
      search := "";
      filterFraksi := All;
      filterJabatan := All;
    }

    /** The fraksi options of the select, from the member list. */
    function FraksiOptions(): (r: seq<string>)
      reads this
      ensures NoDup(r)
      ensures forall f :: f in r <==> f in Members.Fraksis(members)
      ensures forall i, j :: 0 <= i < j < |r| ==> IndexOf(Members.Fraksis(members), r[i]) < IndexOf(Members.Fraksis(members), r[j])
    {
      Members.FraksiOptions(members)
    }

    /** The jabatan options of the select, from the member list. */
    function JabatanOptions(): (r: seq<string>)
      reads this
      ensures NoDup(r)
      ensures forall f :: f in r <==> f in Members.Jabatans(members)
      ensures forall i, j :: 0 <= i < j < |r| ==> IndexOf(Members.Jabatans(members), r[i]) < IndexOf(Members.Jabatans(members), r[j])
    {
      Members.JabatanOptions(members)
    }

    /** The posts the feed lists. */
    function Shown(): seq<Post>
      reads this
    {
      FilteredPosts(members, posts, search, filterFraksi, filterJabatan)
    }

    /** `toggleLike`. */
    method ToggleLike(postId: int)
      modifies this`posts
      ensures posts == ToggleLikeIn(old(posts), postId)
    {
      posts := ToggleLikeIn(posts, postId);
    }

    /** `addComment`, the comment id being the clock reading `commentId`:
      nothing happens when the text typed for the post is blank; otherwise the
      trimmed text is appended to the post's comments, its input is cleared
      and its thread is the open one. */
    method AddComment(postId: int, commentId: int)
      modifies this`posts, this`commentInputs, this`openCommentsFor
      ensures Blank(InputFor(old(commentInputs), postId)) ==>
        posts == old(posts) && commentInputs == old(commentInputs) && openCommentsFor == old(openCommentsFor)
      ensures !Blank(InputFor(old(commentInputs), postId)) ==>
        && posts == AddCommentTo(old(posts), postId, Comment(commentId, Anonymous, Trim(InputFor(old(commentInputs), postId))))
        && commentInputs == old(commentInputs)[postId := ""]
        && openCommentsFor == Some(postId)
    {
      var text := Trim(InputFor(commentInputs, postId));
      TrimEmptyIffBlank(InputFor(commentInputs, postId));
      if text == "" {
        return;
      }
      posts := AddCommentTo(posts, postId, Comment(commentId, Anonymous, text));
      commentInputs := commentInputs[postId := ""];
      openCommentsFor := Some(postId);
    }

    /** Typing in a post's comment box. */
    method SetCommentInput(postId: int, value: string)
      modifies this`commentInputs
      ensures commentInputs == old(commentInputs)[postId := value]
    {
      commentInputs := commentInputs[postId := value];
    }

    /** The "Komentar" button: opens the post's thread, or closes it when it
      is the open one. */
    method ToggleComments(postId: int)
      modifies this`openCommentsFor
      ensures openCommentsFor == if old(openCommentsFor) == Some(postId) then None else Some(postId)
    {
      openCommentsFor := if openCommentsFor == Some(postId) then None else Some(postId);
    }

    method SetSearch(value: string)
      modifies this`search
      ensures search == value
    {
      search := value;
    }

    method SetFilterFraksi(value: string)
      modifies this`filterFraksi
      ensures filterFraksi == value
    {
      filterFraksi := value;
    }

    method SetFilterJabatan(value: string)
      modifies this`filterJabatan
      ensures filterJabatan == value
    {
      filterJabatan := value;
    }
  }
}
