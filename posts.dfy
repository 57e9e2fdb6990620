/**
 * The blog's Post record: its status choices and defaults, the slug and
 * excerpt that `save` derives when they are empty, and the view counter.
 *
 * `slugify` is a library function and is taken as a parameter.
 */
module Posts {
  import opened Strings

  datatype PostStatus = Draft | Published

  const PostStatusKeys: seq<string> := ["draft", "published"]

  function PostStatusKey(s: PostStatus): (key: string)
    ensures key in PostStatusKeys
  {
    match s
    case Draft => "draft"
    case Published => "published"
  }

  const DefaultStatus: PostStatus := Draft

  /** How many code points of the body a derived excerpt keeps. */
  const ExcerptLength: nat := 200
  /** The marker appended when the body was cut. */
  const Ellipsis: string := "..."

  /**
   * The excerpt derived from a body: the body itself when it is at most 200
   * code points long, otherwise its first 200 code points followed by the
   * ellipsis.
   */
  function DerivedExcerpt(body: string): (e: string)
    ensures |body| <= ExcerptLength ==> e == body
    ensures |body| > ExcerptLength ==>
              |e| == ExcerptLength + |Ellipsis| && StartsWith(e, body[..ExcerptLength]) && EndsWith(e, Ellipsis)
    ensures |e| <= ExcerptLength + |Ellipsis|
    ensures body != [] <==> e != []
  {
    if |body| > ExcerptLength then
      var e := body[..ExcerptLength] + Ellipsis;
      assert e[..ExcerptLength] == body[..ExcerptLength] && e[|e| - |Ellipsis|..] == Ellipsis;
      e
    else
      body
  }

  /** The slug after `save`: a non-empty slug is kept, an empty one is derived from the title. */
  function SlugAfterSave(slug: string, title: string, slugify: string -> string): (r: string)
    ensures slug != [] ==> r == slug
    ensures slug == [] ==> r == slugify(title)
  {
    if slug == [] then slugify(title) else slug
  }

  /** The excerpt after `save`: a non-empty excerpt is kept, an empty one is derived from a non-empty body. */
  function ExcerptAfterSave(excerpt: string, body: string): (r: string)
    ensures excerpt != [] ==> r == excerpt
    ensures excerpt == [] ==> r == DerivedExcerpt(body)
  {
    if excerpt == [] && body != [] then DerivedExcerpt(body) else excerpt
  }

  /** Saving a second time derives nothing new. */
  lemma SaveIdempotent(slug: string, title: string, excerpt: string, body: string, slugify: string -> string)
    ensures SlugAfterSave(SlugAfterSave(slug, title, slugify), title, slugify) == SlugAfterSave(slug, title, slugify)
    ensures ExcerptAfterSave(ExcerptAfterSave(excerpt, body), body) == ExcerptAfterSave(excerpt, body)
  {
  }

  /** A derived excerpt is at most 203 code points and starts with a prefix of the body. */
  lemma DerivedExcerptIsBodyPrefix(body: string)
    ensures var e := DerivedExcerpt(body);
            var kept := if |body| <= ExcerptLength then |body| else ExcerptLength;
            |e| <= 203 && StartsWith(e, body[..kept]) && StartsWith(body, e[..kept])
  {
  }

  class Post {
    var title: string
    var slug: string
    var body: string
    var excerpt: string
    var status: PostStatus
    var views: nat

    /** A new, unsaved post: a draft nobody has viewed. */
    constructor (title: string, body: string, slug: string, excerpt: string)
      ensures this.title == title && this.body == body && this.slug == slug && this.excerpt == excerpt
      ensures status == DefaultStatus && views == 0
    {
      this.title := title;
      this.body := body;
      this.slug := slug;
      this.excerpt := excerpt;
      status := DefaultStatus;
      views := 0;
    }

    /** The slug and excerpt are what `save` would leave them as. */
    predicate Derived(slugify: string -> string)
      reads this
    {
      slug == SlugAfterSave(slug, title, slugify) && excerpt == ExcerptAfterSave(excerpt, body)
    }

    /** `save`, up to the database write: fills an empty slug and an empty excerpt. */
    method Save(slugify: string -> string)
      modifies this`slug, this`excerpt
      ensures slug == SlugAfterSave(old(slug), title, slugify)
      ensures excerpt == ExcerptAfterSave(old(excerpt), body)
      ensures Derived(slugify)
    {
      SaveIdempotent(slug, title, excerpt, body, slugify);
      if slug == [] {
        slug := slugify(title);
      }
      if excerpt == [] && body != [] {
        excerpt := DerivedExcerpt(body);
      }
    }

    /**
     * `increment_views`: one more view, then `save` (which writes only the
     * counter); on a post already saved nothing but the counter changes.
     */
    method IncrementViews(slugify: string -> string)
      modifies this`views, this`slug, this`excerpt
      ensures views == old(views) + 1
      ensures slug == SlugAfterSave(old(slug), title, slugify)
      ensures excerpt == ExcerptAfterSave(old(excerpt), body)
      ensures old(Derived(slugify)) ==> slug == old(slug) && excerpt == old(excerpt)
    {
      views := views + 1;
      Save(slugify);
    }
  }
}
