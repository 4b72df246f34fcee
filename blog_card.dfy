/** The card shown for each post on the blog index: a link to the article, a
    category chip, the title, the description and the author with an avatar. */
module BlogCard {
  import opened Optional
  import opened Text
  import opened BlogsData

  /** The component's props; only `category` may be left out. */
  datatype Props = Props(
    title: string,
    description: string,
    image: string,
    author: string,
    date: string,
    slug: string,
    category: Option<string>)

  const DefaultCategory := "Marketing"
  const LinkPrefix := "/blog/"
  const AvatarService := "https://ui-avatars.com/api/?name="

  /** What the card displays (the relative date is left out). */
  datatype Card = Card(link: string, image: string, category: string, title: string,
                       description: string, avatar: string, author: string)

  /** The default parameter `category = 'Marketing'` applies only when the prop is absent. */
  function CategoryOf(p: Props): (c: string)
    ensures p.category.None? ==> c == DefaultCategory
    ensures p.category.Some? ==> c == p.category.value
  {
    p.category.GetOr(DefaultCategory)
  }

  function Link(slug: string): string {
    LinkPrefix + slug
  }

  /** The slug is recovered from the link by dropping the prefix, so different slugs give different links. */
  lemma LinkRoundTrip(slug: string, other: string)
    ensures |Link(slug)| == |LinkPrefix| + |slug|
    ensures Link(slug)[..|LinkPrefix|] == LinkPrefix
    ensures Link(slug)[|LinkPrefix|..] == slug
    ensures Link(slug) == Link(other) ==> slug == other
  {
    assert Link(slug)[|LinkPrefix|..] == slug;
    assert Link(other)[|LinkPrefix|..] == other;
  }

  /** `author.replace(/\s+/g, '+')` after the avatar service address. */
  function Avatar(author: string): string {
    AvatarService + CollapseSpaces(author, '+')
  }

  /** The avatar name holds no whitespace at all, and encoding it again changes nothing. */
  lemma AvatarNameIsEncoded(author: string)
    ensures NoSpace(Avatar(author)[|AvatarService|..])
    ensures CollapseSpaces(Avatar(author)[|AvatarService|..], '+') == Avatar(author)[|AvatarService|..]
  {
    assert Avatar(author)[|AvatarService|..] == CollapseSpaces(author, '+');
    CollapseSpacesHasNoSpace(author, '+');
    CollapseSpacesIdempotent(author, '+');
  }

  function Render(p: Props): (c: Card)
    ensures c.title == p.title && c.description == p.description && c.author == p.author
    ensures c.image == p.image
    ensures c.link == Link(p.slug) && c.category == CategoryOf(p) && c.avatar == Avatar(p.author)
  {
    Card(Link(p.slug), p.image, CategoryOf(p), p.title, p.description, Avatar(p.author), p.author)
  }

  /** The props the blog index passes for a post: every field but `category`. */
  function PropsFromPost(post: BlogPost): (p: Props)
    ensures p.category.None?
    ensures p.title == post.title && p.slug == post.slug && p.author == post.author
    ensures p.description == post.description && p.image == post.image && p.date == post.date
  {
    Props(post.title, post.description, post.image, post.author, post.date, post.slug, None)
  }

  /** Every card on the index shows "Marketing", even for a post that has a category of its own. */
  lemma IndexCardsShowDefaultCategory(post: BlogPost)
    ensures Render(PropsFromPost(post)).category == DefaultCategory
    ensures Render(PropsFromPost(post)).link == LinkPrefix + post.slug
  {
  }

  /** On the index, the first post's card says "Marketing" although the post's category is "Digital Marketing". */
  lemma FirstPostCategoryHidden()
    ensures Posts[0].category == Some("Digital Marketing")
    ensures Render(PropsFromPost(Posts[0])).category != Posts[0].category.value
  {
    IndexCardsShowDefaultCategory(Posts[0]);
  }
}
