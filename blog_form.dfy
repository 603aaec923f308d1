/** The admin blog editor (components/admin/blog-form.tsx): the title that
    drives the slug of a new post, and the form data it hands to
    saveBlogPost. */
module BlogForm {
  import opened Types
  import opened Store
  import Forms
  import Blog
  import AdminActions

  /** The post being edited, as the editor receives it. */
  datatype PostInput = PostInput(id: Id, title: string, slug: string, excerpt: string, content: string, isPublished: bool)

  /** `new FormData(form)`: the named inputs in document order
      (components/admin/blog-form.tsx:77, 89, 104, 115). */
  function InputEntries(title: string, slug: string, excerpt: string, content: string): seq<(string, string)> {
    [("title", title), ("slug", slug), ("excerpt", excerpt), ("content", content)]
  }

  /** What handleSubmit appends (components/admin/blog-form.tsx:49-53). */
  function Appended(isPublished: bool, postId: Option<Id>): seq<(string, string)> {
    [("isPublished", Forms.BoolText(isPublished))] + (if Forms.Truthy(postId) then [("id", postId.value)] else [])
  }

  /** saveBlogPost reads back the title, the slug, the published flag the
      switch showed, and an id exactly when an existing post is edited. */
  lemma {:induction false} SubmitRoundTrip(title: string, slug: string, excerpt: string, content: string, isPublished: bool, postId: Option<Id>)
    ensures var e := InputEntries(title, slug, excerpt, content) + Appended(isPublished, postId);
            Forms.Lookup(e, "title") == Some(title) && Forms.Lookup(e, "slug") == Some(slug)
            && Forms.Lookup(e, "excerpt") == Some(excerpt) && Forms.Lookup(e, "content") == Some(content)
            && Forms.IsTrueText(Forms.Lookup(e, "isPublished")) == isPublished
            && (Forms.Truthy(Forms.Lookup(e, "id")) <==> Forms.Truthy(postId))
            && (Forms.Truthy(postId) ==> Forms.Lookup(e, "id") == postId)
  {
    var e := InputEntries(title, slug, excerpt, content) + Appended(isPublished, postId);
    Forms.LookupAt(e, 2, "excerpt");
    Forms.LookupAt(e, 3, "content");
    Forms.LookupAt(e, 4, "isPublished");
    if Forms.Truthy(postId) {
      Forms.LookupAt(e, 5, "id");
    } else {
      Forms.LookupFirst(e, "id");
    }
  }

  /** For a new post the editor's slug and the server's fallback agree:
      whether the slug field still holds the derived slug or was emptied,
      the stored slug is the one derived from the title. */
  lemma {:induction false} DerivedSlugStored(title: string)
    ensures Blog.ChosenSlug(Some(Blog.Slugify(title)), Some(title)) == Some(Blog.Slugify(title))
    ensures Blog.ChosenSlug(Some(""), Some(title)) == Some(Blog.Slugify(title))
  {
  }

  /** The toast and navigation after saveBlogPost answers
      (components/admin/blog-form.tsx:56-66). */
  function SubmitToast(res: ActionResult, editing: bool): (t: Forms.Toast)
    ensures t.ToastSuccess? <==> res.Success?
    ensures res.Failure? && res.error != "" ==> t == Forms.ToastError(res.error)
  {
    match res
    case Success(_) => Forms.ToastSuccess(if editing then "Blog post updated!" else "Blog post created!")
    case Failure(_) => Forms.ToastError(Forms.ErrorOr(res, "Failed to save blog post"))
    case Threw => Forms.ToastError("Something went wrong")
  }

  /** The form data handleSubmit builds (components/admin/blog-form.tsx:46-53). */
  method NewSubmission(title: string, slug: string, excerpt: string, content: string, isPublished: bool, postId: Option<Id>)
    returns (form: Forms.FormData)
    ensures fresh(form) && form.entries == InputEntries(title, slug, excerpt, content) + Appended(isPublished, postId)
  {
    form := new Forms.FormData(InputEntries(title, slug, excerpt, content));
    form.Append("isPublished", Forms.BoolText(isPublished));
    if Forms.Truthy(postId) {
      form.Append("id", postId.value);
    }
  }

  class BlogFormState {
    var isSubmitting: bool
    var isPublished: bool
    var title: string
    var slug: string
    var toast: Option<Forms.Toast>
    var navigatedTo: Option<string>
    const post: Option<PostInput>

    /** The initial state (components/admin/blog-form.tsx:28-31). */
    constructor (post: Option<PostInput>)
      ensures this.post == post && !isSubmitting && toast.None? && navigatedTo.None?
      ensures post.None? ==> !isPublished && title == "" && slug == ""
      ensures post.Some? ==> isPublished == post.value.isPublished && title == post.value.title && slug == post.value.slug
    {
      this.post := post;
      isSubmitting := false;
      toast, navigatedTo := None, None;
      if post.Some? {
        isPublished, title, slug := post.value.isPublished, post.value.title, post.value.slug;
      } else {
        isPublished, title, slug := false, "", "";
      }
    }

    function PostId(): Option<Id>
      reads this
    {
      if post.Some? then Some(post.value.id) else None
    }

    /** handleTitleChange (components/admin/blog-form.tsx:34-44): a new
        post's slug follows its title; an existing post keeps its slug. */
    method HandleTitleChange(newTitle: string)
      modifies this
      ensures title == newTitle
      ensures !Forms.Truthy(PostId()) ==> slug == Blog.Slugify(newTitle) && Blog.IsSlug(slug)
      ensures Forms.Truthy(PostId()) ==> slug == old(slug)
      ensures isPublished == old(isPublished) && isSubmitting == old(isSubmitting) && toast == old(toast)
              && navigatedTo == old(navigatedTo)
    {
      title := newTitle;
      if !Forms.Truthy(PostId()) {
        slug := Blog.Slugify(newTitle);
        Blog.SlugifyIsSlug(newTitle);
      }
    }

    /** handleSubmit (components/admin/blog-form.tsx:46-69): the post
        saveBlogPost stores is the one the editor shows, under the slug the
        server settles on; `newId` is the id of an inserted post. */
    method HandleSubmit(db: Database, user: Option<Id>, excerpt: string, content: string, now: nat, dbError: Option<string>)
      returns (form: Forms.FormData, res: ActionResult, ghost newId: Option<Id>)
      modifies this, db
      ensures fresh(form) && form.entries == InputEntries(title, slug, excerpt, content) + Appended(isPublished, PostId())
      ensures !isSubmitting && toast == Some(SubmitToast(res, post.Some?))
      ensures navigatedTo == (if res.Success? then Some("/admin/blog") else old(navigatedTo))
      ensures title == old(title) && slug == old(slug) && isPublished == old(isPublished)
      ensures AdminActions.StaffGate(user, old(db.profiles)).Some? ==>
                res == Failure(AdminActions.StaffGate(user, old(db.profiles)).value) && db.Snapshot() == old(db.Snapshot())
      ensures AdminActions.StaffGate(user, old(db.profiles)).None? && dbError.Some? ==>
                res == Failure(Blog.SaveError(dbError)) && db.Snapshot() == old(db.Snapshot())
      ensures AdminActions.StaffGate(user, old(db.profiles)).None? && dbError.None? ==>
                var row := Blog.PostRow(title, Blog.ChosenSlug(Some(slug), Some(title)).value, Some(excerpt), Some(content),
                                        user.value, old(db.profiles)[user.value].fullName, isPublished, now);
                res == Success(None)
                && (Forms.Truthy(PostId()) ==> newId.None? && db.Snapshot() == old(db.Snapshot()).(blogPosts :=
                      if PostId().value in old(db.blogPosts) then old(db.blogPosts)[PostId().value := row] else old(db.blogPosts)))
                && (!Forms.Truthy(PostId()) ==>
                      newId.Some? && newId.value !in old(db.blogPosts)
                      && db.Snapshot() == old(db.Snapshot()).(blogPosts := old(db.blogPosts)[newId.value := row]))
    {
      isSubmitting := true;
      form := NewSubmission(title, slug, excerpt, content, isPublished, PostId());
      SubmitRoundTrip(title, slug, excerpt, content, isPublished, PostId());
      res, newId := Blog.SaveBlogPost(db, user, form, now, dbError);
      Notify(res);
    }

    /** The toast, the navigation on success and the cleared busy flag. */
    method Notify(res: ActionResult)
      modifies this
      ensures !isSubmitting && toast == Some(SubmitToast(res, post.Some?))
      ensures navigatedTo == (if res.Success? then Some("/admin/blog") else old(navigatedTo))
      ensures title == old(title) && slug == old(slug) && isPublished == old(isPublished)
    {
      toast := Some(SubmitToast(res, post.Some?));
      if res.Success? {
        navigatedTo := Some("/admin/blog");
      }
      isSubmitting := false;
    }
  }
}
