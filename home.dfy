/** The home page's static props: the four newest posts and every project, each cut
    down to the fields the page shows. */
module Home {
  import opened Wrappers
  import opened Content
  import opened Sequences

  /** `pick(post, ["slug", "title", "publishedAt", "image"])`. */
  datatype PostSummary = PostSummary(slug: string, title: string, publishedAt: int, image: Option<string>)

  /** `pick(project, ["slug", "title", "description", "time"])`. */
  datatype ProjectSummary = ProjectSummary(slug: string, title: string, description: string, time: string)

  datatype HomeProps = HomeProps(posts: seq<PostSummary>, projects: seq<ProjectSummary>)

  /** Posts in non-increasing `publishedAt` order: newest first. */
  predicate NewestFirst(s: seq<Post>) {
    forall i, j :: 0 <= i < j < |s| ==> s[i].publishedAt >= s[j].publishedAt
  }

  /** `a[0..n)` is newest first. */
  ghost predicate PrefixNewestFirst(a: array<Post>, n: int)
    reads a
  {
    forall k, l :: 0 <= k < l < n && l < a.Length ==> a[k].publishedAt >= a[l].publishedAt
  }

  /** Exchanges two neighbouring posts. */
  method SwapDown(a: array<Post>, j: int)
    requires 0 < j < a.Length
    modifies a
    ensures a[j - 1] == old(a[j]) && a[j] == old(a[j - 1])
    ensures forall k :: 0 <= k < a.Length && k != j - 1 && k != j ==> a[k] == old(a[k])
    ensures multiset(a[..]) == multiset(old(a[..]))
  {
    a[j - 1], a[j] := a[j], a[j - 1];
  }

  /** Moves `a[i]` left past every older post, extending the newest-first prefix by one. */
  method InsertNewest(a: array<Post>, i: int)
    requires 0 < i < a.Length
    requires PrefixNewestFirst(a, i)
    modifies a
    ensures PrefixNewestFirst(a, i + 1)
    ensures forall k :: i < k < a.Length ==> a[k] == old(a[k])
    ensures multiset(a[..]) == multiset(old(a[..]))
  {
    var j := i;
    while j > 0 && a[j - 1].publishedAt < a[j].publishedAt
      invariant 0 <= j <= i
      invariant forall k, l :: 0 <= k < l <= i && k != j && l != j ==> a[k].publishedAt >= a[l].publishedAt
      invariant forall l :: j < l <= i ==> a[j].publishedAt > a[l].publishedAt
      invariant forall k :: i < k < a.Length ==> a[k] == old(a[k])
      invariant multiset(a[..]) == multiset(old(a[..]))
    {
      SwapDown(a, j);
      j := j - 1;
    }
  }

  /** `allPosts.sort((a, b) => b.publishedAt - a.publishedAt)`, in place. */
  method SortNewestFirst(a: array<Post>)
    modifies a
    ensures NewestFirst(a[..])
    ensures multiset(a[..]) == multiset(old(a[..]))
  {
    if a.Length == 0 {
      return;
    }
    var i := 1;
    while i < a.Length
      invariant 1 <= i <= a.Length
      invariant PrefixNewestFirst(a, i)
      invariant multiset(a[..]) == multiset(old(a[..]))
    {
      InsertNewest(a, i);
      i := i + 1;
    }
  }

  function SummarizePost(p: Post): (s: PostSummary)
    ensures s.slug == p.slug && s.title == p.title && s.publishedAt == p.publishedAt && s.image == p.image
  {
    PostSummary(p.slug, p.title, p.publishedAt, p.image)
  }

  function SummarizeProject(p: Project): (s: ProjectSummary)
    ensures s.slug == p.slug && s.title == p.title && s.description == p.description && s.time == p.time
  {
    ProjectSummary(p.slug, p.title, p.description, p.time)
  }

  /** `.filter((_, i) => i < 4)`: the entries at positions below 4. */
  function FirstFour(s: seq<Post>): (r: seq<Post>)
    ensures |r| <= 4
  {
    if |s| <= 4 then s else s[..4]
  }

  /** `.map(pick…)` over posts. */
  function SummarizePosts(s: seq<Post>): (r: seq<PostSummary>)
    ensures |r| == |s|
    ensures forall i :: 0 <= i < |s| ==> r[i] == SummarizePost(s[i])
  {
    if s == [] then [] else [SummarizePost(s[0])] + SummarizePosts(s[1..])
  }

  /** The posts prop, from the sorted posts: at most four posts, the first ones of the
      sorted list, field for field. */
  function SelectPosts(sorted: seq<Post>): (r: seq<PostSummary>)
    ensures |r| == if |sorted| < 4 then |sorted| else 4
    ensures forall i :: 0 <= i < |r| ==> r[i] == SummarizePost(sorted[i])
  {
    SummarizePosts(FirstFour(sorted))
  }

  /** From newest-first posts, the selected ones are newest first, and none is older
      than any post left out. */
  lemma SelectPostsNewest(sorted: seq<Post>)
    requires NewestFirst(sorted)
    ensures forall i, j :: 0 <= i < j < |SelectPosts(sorted)| ==>
      SelectPosts(sorted)[i].publishedAt >= SelectPosts(sorted)[j].publishedAt
    ensures forall i, j :: 0 <= i < |SelectPosts(sorted)| <= j < |sorted| ==>
      SelectPosts(sorted)[i].publishedAt >= sorted[j].publishedAt
  {
  }

  /** `allProjects.map(pick…)`. */
  function SummarizeProjects(s: seq<Project>): (r: seq<ProjectSummary>)
    ensures |r| == |s|
    ensures forall i :: 0 <= i < |s| ==> r[i] == SummarizeProject(s[i])
  {
    if s == [] then [] else [SummarizeProject(s[0])] + SummarizeProjects(s[1..])
  }

  /** getStaticProps: sorts `allPosts` in place, then builds both props. */
  method GetStaticProps(allPosts: array<Post>, allProjects: seq<Project>) returns (props: HomeProps)
    modifies allPosts
    ensures NewestFirst(allPosts[..])
    ensures multiset(allPosts[..]) == multiset(old(allPosts[..]))
    ensures props.posts == SelectPosts(allPosts[..])
    ensures props.projects == SummarizeProjects(allProjects)
  {
    SortNewestFirst(allPosts);
    props := HomeProps(SelectPosts(allPosts[..]), SummarizeProjects(allProjects));
  }
}
