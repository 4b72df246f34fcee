/** The blog article page: the post is looked up by the slug of the route, and
    the page shows its title, a header avatar, the reading time, the body (the
    Markdown content, or the description followed by a fixed list of points)
    and an author box with a second avatar and a "Follow" button. */
module BlogPostPage {
  import opened Optional
  import opened Text
  import opened BlogsData

  // ---------------------------------------------------------------------------
  // lookup

  /** The position `blogPosts.find(post => post.slug === slug)` stops at; the route parameter may be undefined. */
  function FindIndex(posts: seq<BlogPost>, slug: Option<string>): (r: Option<nat>)
    ensures r.None? <==> forall i :: 0 <= i < |posts| ==> Some(posts[i].slug) != slug
    ensures r.Some? ==> r.value < |posts| && Some(posts[r.value].slug) == slug
    ensures r.Some? ==> forall j :: 0 <= j < r.value ==> Some(posts[j].slug) != slug
  {
    if posts == [] then None
    else if Some(posts[0].slug) == slug then Some(0)
    else match FindIndex(posts[1..], slug)
      case None => None
      case Some(k) => Some(k + 1)
  }

  /** The first post whose slug equals the parameter, if any. */
  function Find(posts: seq<BlogPost>, slug: Option<string>): (r: Option<BlogPost>)
    ensures r.None? <==> forall p :: p in posts ==> Some(p.slug) != slug
    ensures r.Some? ==> r.value in posts && Some(r.value.slug) == slug
  {
    match FindIndex(posts, slug)
    case None => None
    case Some(k) => Some(posts[k])
  }

  /** The lookup stops at the first post carrying the slug. */
  lemma {:induction false} FirstMatchAt(posts: seq<BlogPost>, k: nat, slug: Option<string>)
    requires k < |posts| && Some(posts[k].slug) == slug
    requires forall j :: 0 <= j < k ==> Some(posts[j].slug) != slug
    ensures FindIndex(posts, slug) == Some(k)
    ensures Find(posts, slug) == Some(posts[k])
  {
    if k > 0 {
      assert Some(posts[0].slug) != slug;
      FirstMatchAt(posts[1..], k - 1, slug);
    }
  }

  /** Looking up the slug of post 7, 8 or 9 yields post 1, 2 or 3. */
  lemma DuplicateSlugsResolveToFirst(k: nat)
    requires k < 3
    ensures Find(Posts, Some(Posts[k + 6].slug)) == Some(Posts[k])
    ensures Find(Posts, Some(Posts[k + 6].slug)).value.id == k + 1
  {
    Slugs();
    Ids();
    FirstMatchAt(Posts, k, Some(Posts[k].slug));
  }

  /** No slug reaches posts 7, 8 or 9: their pages can never be shown. */
  lemma LastThreeUnreachable(slug: Option<string>)
    ensures FindIndex(Posts, slug).Some? ==> FindIndex(Posts, slug).value < 6
    ensures Find(Posts, slug).Some? ==> Find(Posts, slug).value.id <= 6
  {
    Ids();
    Slugs();
    forall k | 6 <= k < 9
      ensures FindIndex(Posts, slug) != Some(k)
    {
      EarlierCopyWins(Posts, k - 6, k, slug);
    }
  }

  /** Of two posts with the same slug, the later one is never found. */
  lemma EarlierCopyWins(posts: seq<BlogPost>, j: nat, k: nat, slug: Option<string>)
    requires j < k < |posts| && posts[j].slug == posts[k].slug
    ensures FindIndex(posts, slug) != Some(k)
  {
  }

  /** A missing route parameter finds nothing. */
  lemma MissingSlugNotFound(posts: seq<BlogPost>)
    ensures Find(posts, None) == None
  {
  }

  // ---------------------------------------------------------------------------
  // reading time

  /** `Math.ceil(n / d)` for a natural `n` and positive `d`. */
  function CeilDiv(n: nat, d: nat): (q: nat)
    requires d > 0
    ensures q * d >= n
    ensures q == 0 || (q - 1) * d < n
  {
    (n + d - 1) / d
  }

  const CharsPerMinute: nat := 1000

  /** `post.content?.length || post.description.length`: an absent or empty body falls back to the description. */
  function ReadingLength(p: BlogPost): (n: nat)
    ensures p.content.Some? && p.content.value != [] ==> n == JsLength(p.content.value)
    ensures p.content.None? || p.content.value == [] ==> n == JsLength(p.description)
  {
    match p.content
    case Some(c) => if JsLength(c) != 0 then JsLength(c) else JsLength(p.description)
    case None => JsLength(p.description)
  }

  function ReadingMinutes(p: BlogPost): nat {
    CeilDiv(ReadingLength(p), CharsPerMinute)
  }

  /** The reading time is the least number of minutes whose 1000 characters each cover the text. */
  lemma ReadingMinutesIsCeiling(p: BlogPost)
    ensures ReadingMinutes(p) * 1000 >= ReadingLength(p)
    ensures ReadingMinutes(p) > 0 ==> (ReadingMinutes(p) - 1) * 1000 < ReadingLength(p)
    ensures ReadingLength(p) == 0 <==> ReadingMinutes(p) == 0
  {
  }

  /** One minute for any text of 1 to 1000 code units. */
  lemma OneMinuteUpTo1000(p: BlogPost)
    requires 0 < ReadingLength(p) <= 1000
    ensures ReadingMinutes(p) == 1
  {
  }

  /** Posts 6 to 9 have no body, so their reading time comes from the description: one minute each. */
  lemma ShortPostsReadInOneMinute()
    ensures forall k :: 5 <= k < |Posts| ==> ReadingLength(Posts[k]) == JsLength(Posts[k].description)
    ensures forall k :: 5 <= k < |Posts| ==> ReadingMinutes(Posts[k]) == 1
  {
    OptionalFields();
    forall k | 5 <= k < |Posts|
      ensures ReadingMinutes(Posts[k]) == 1
    {
      assert 0 < |Posts[k].description| <= 500;
      OneMinuteUpTo1000(Posts[k]);
    }
  }

  // ---------------------------------------------------------------------------
  // body and author strings

  /** The five points listed under the description when a post has no body. */
  const KeyPoints: seq<string> := [
    "Leverage data analytics to understand customer behavior",
    "Create personalized experiences across all touchpoints",
    "Focus on building genuine relationships with your audience",
    "Embrace new technologies and platforms",
    "Measure and optimize your campaigns continuously"
  ]

  /** `post.image && <img>`: the empty string shows no picture. */
  function HeroImage(p: BlogPost): (r: Option<string>)
    ensures r.Some? <==> p.image != []
    ensures r.Some? ==> r.value == p.image
  {
    if p.image != [] then Some(p.image) else None
  }

  datatype Body = Markdown(source: string) | Fallback(description: string, points: seq<string>)

  /** `post.content ? <ReactMarkdown> : description and list`; the empty string is falsy. */
  function BodyOf(p: BlogPost): (b: Body)
    ensures b.Markdown? <==> p.content.Some? && p.content.value != []
    ensures b.Markdown? ==> b.source == p.content.value
    ensures b.Fallback? ==> b == Fallback(p.description, KeyPoints) && |b.points| == 5
  {
    match p.content
    case Some(c) => if c != [] then Markdown(c) else Fallback(p.description, KeyPoints)
    case None => Fallback(p.description, KeyPoints)
  }

  const AvatarService := "https://ui-avatars.com/api/?name="
  const AvatarColours := "&background=0D8ABC&color=fff"

  /** The header avatar: `author.replace(/\s+/g, '+')`. */
  function HeaderAvatarName(author: string): string {
    CollapseSpaces(author, '+')
  }

  /** The author-box avatar: `author.replace(' ', '+')`, the first space only. */
  function BoxAvatarName(author: string): string {
    ReplaceFirst(author, ' ', '+')
  }

  /** The name on the "Follow" button: `author.split(' ')[0]`. */
  function FollowName(author: string): (name: string)
    ensures ' ' !in name
    ensures name == (if IndexOf(author, ' ') == -1 then author else author[..IndexOf(author, ' ')])
  {
    SplitPartsLackSeparator(author, ' ');
    SplitFirstPart(author, ' ');
    Split(author, ' ')[0]
  }

  lemma {:induction false} IndexOfAfterWord(a: string, rest: string)
    requires NoSpace(a)
    ensures IndexOf(a + " " + rest, ' ') == |a|
  {
    if a != [] {
      assert (a + " " + rest)[1..] == a[1..] + " " + rest;
      IndexOfAfterWord(a[1..], rest);
    }
  }

  /** For a name made of two words and one space, both avatars and the follow label agree with the usual reading. */
  lemma TwoWordName(a: string, b: string)
    requires NoSpace(a) && NoSpace(b)
    ensures HeaderAvatarName(a + " " + b) == a + "+" + b
    ensures BoxAvatarName(a + " " + b) == a + "+" + b
    ensures FollowName(a + " " + b) == a
  {
    var s := a + " " + b;
    CollapseSpacesRun(a, " ", b, '+');
    CollapseSpacesKeepsWord(b, [], '+');
    assert b + [] == b;
    IndexOfAfterWord(a, b);
    ReplaceFirstAt(s, ' ', '+');
    assert s[..|a|] == a;
    assert s[|a| + 1..] == b;
  }

  lemma HeaderOfThreeWords(a: string, b: string, c: string)
    requires NoSpace(a) && NoSpace(b) && NoSpace(c) && b != []
    ensures HeaderAvatarName(a + " " + (b + " " + c)) == a + "+" + (b + "+" + c)
  {
    assert (b + " " + c)[0] == b[0];
    CollapseSpacesRun(a, " ", b + " " + c, '+');
    TwoWordName(b, c);
  }

  lemma BoxOfThreeWords(a: string, b: string, c: string)
    requires NoSpace(a)
    ensures BoxAvatarName(a + " " + (b + " " + c)) == a + "+" + (b + " " + c)
  {
    var s := a + " " + (b + " " + c);
    IndexOfAfterWord(a, b + " " + c);
    ReplaceFirstAt(s, ' ', '+');
    assert s[..|a|] == a;
    assert s[|a| + 1..] == b + " " + c;
  }

  const FirstNames: seq<string> := ["Sarah", "Michael", "Emma", "David", "Lisa", "James"]
  const LastNames: seq<string> := ["Johnson", "Chen", "Davis", "Kim", "Wong", "Wilson"]

  /** Every author in the table has a first and a last name, so on every article the
      two avatars agree and the button follows the first name. */
  lemma {:induction false} TableAvatarsAgree()
    ensures forall k :: 0 <= k < |Posts| ==> HeaderAvatarName(Posts[k].author) == BoxAvatarName(Posts[k].author)
    ensures forall k :: 0 <= k < |Posts| ==> FollowName(Posts[k].author) == FirstNames[k % 6]
  {
    forall k | 0 <= k < |Posts|
      ensures HeaderAvatarName(Posts[k].author) == BoxAvatarName(Posts[k].author)
      ensures FollowName(Posts[k].author) == FirstNames[k % 6]
    {
      AuthorsRepeat();
      AuthorHasTwoNames(k % 6);
      TwoWordName(FirstNames[k % 6], LastNames[k % 6]);
    }
  }

  lemma AuthorHasTwoNames(i: nat)
    requires i < 6
    ensures Authors[i] == FirstNames[i] + " " + LastNames[i]
    ensures NoSpace(FirstNames[i]) && NoSpace(LastNames[i])
  {
  }

  /** With two spaces the avatars differ: only the header replaces the second one. */
  lemma ThreeWordNameAvatarsDiffer(a: string, b: string, c: string)
    requires NoSpace(a) && NoSpace(b) && NoSpace(c) && b != []
    ensures HeaderAvatarName(a + " " + b + " " + c) == a + "+" + b + "+" + c
    ensures BoxAvatarName(a + " " + b + " " + c) == a + "+" + b + " " + c
    ensures HeaderAvatarName(a + " " + b + " " + c) != BoxAvatarName(a + " " + b + " " + c)
  {
    assert a + " " + b + " " + c == a + " " + (b + " " + c);
    assert a + "+" + b + "+" + c == a + "+" + (b + "+" + c);
    assert a + "+" + b + " " + c == a + "+" + (b + " " + c);
    HeaderOfThreeWords(a, b, c);
    BoxOfThreeWords(a, b, c);
    var h := a + "+" + b + "+" + c;
    var x := a + "+" + b + " " + c;
    assert h[|a| + 1 + |b|] != x[|a| + 1 + |b|];
  }

  /** Any whitespace character other than the first space survives in the author-box name
      but not in the header name, so the two avatars differ. */
  lemma AvatarsDifferWithSecondSpace(s: string, i: int)
    requires 0 <= i < |s| && IsSpace(s[i]) && i != IndexOf(s, ' ')
    ensures HeaderAvatarName(s) != BoxAvatarName(s)
  {
    CollapseSpacesHasNoSpace(s, '+');
    ReplaceFirstAt(s, ' ', '+');
    if IndexOf(s, ' ') != -1 {
      assert BoxAvatarName(s)[i] == s[i];
    }
    assert IsSpace(BoxAvatarName(s)[i]);
  }

  /** A doubled space between two names, for one, makes the two avatars differ. */
  lemma DoubleSpaceAvatarsDiffer(a: string, b: string)
    requires NoSpace(a)
    ensures HeaderAvatarName(a + "  " + b) != BoxAvatarName(a + "  " + b)
  {
    var s := a + "  " + b;
    assert s == a + " " + (" " + b);
    IndexOfAfterWord(a, " " + b);
    AvatarsDifferWithSecondSpace(s, |a| + 1);
  }

  // ---------------------------------------------------------------------------
  // the page

  datatype Page =
    | NotFound
    | Article(title: string, headerAvatar: string, minutes: nat, image: Option<string>, body: Body,
              boxAvatar: string, author: string, follow: string)

  /** The not-found view when no post carries the slug; otherwise the article built from the first post that does. */
  function Render(posts: seq<BlogPost>, slug: Option<string>): (page: Page)
    ensures page.NotFound? <==> forall p :: p in posts ==> Some(p.slug) != slug
    ensures page.Article? ==> FindIndex(posts, slug).Some?
    ensures page.Article? ==>
              var p := posts[FindIndex(posts, slug).value];
              && page.title == p.title && page.author == p.author && page.minutes == ReadingMinutes(p)
              && page.image == HeroImage(p) && page.body == BodyOf(p)
              && page.headerAvatar == AvatarService + HeaderAvatarName(p.author) + AvatarColours
              && page.boxAvatar == AvatarService + BoxAvatarName(p.author) + AvatarColours
              && page.follow == "Follow " + FollowName(p.author)
  {
    match Find(posts, slug)
    case None => NotFound
    case Some(p) =>
      Article(p.title,
              AvatarService + HeaderAvatarName(p.author) + AvatarColours,
              ReadingMinutes(p),
              HeroImage(p),
              BodyOf(p),
              AvatarService + BoxAvatarName(p.author) + AvatarColours,
              p.author,
              "Follow " + FollowName(p.author))
  }
}
