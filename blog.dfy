/** Blog posts (app/actions/blog.ts) and the slug rule shared with the
    editor (components/admin/blog-form.tsx:38-41): lowercase, every run of
    characters outside a-z and 0-9 becomes one "-", and a leading and a
    trailing "-" are dropped. */
module Blog {
  import opened Types
  import opened Store
  import Text
  import Forms
  import AdminActions

  /** The text after its leading run of characters outside [a-z0-9]. */
  function DropRun(s: string): (r: string)
    ensures |r| <= |s|
    ensures r == [] || Text.IsLowerAlnum(r[0])
    ensures r == s[|s| - |r|..]
  {
    if s == [] || Text.IsLowerAlnum(s[0]) then s else DropRun(s[1..])
  }

  /** `.replace(/[^a-z0-9]+/g, "-")`. */
  function Collapse(s: string): string
    decreases |s|
  {
    if s == [] then []
    else if Text.IsLowerAlnum(s[0]) then [s[0]] + Collapse(s[1..])
    else ['-'] + Collapse(DropRun(s[1..]))
  }

  /** `.replace(/(^-|-$)/g, "")`: a leading "-", then a trailing one. */
  function StripDashes(s: string): string {
    var t := if |s| > 0 && s[0] == '-' then s[1..] else s;
    if |t| > 0 && t[|t| - 1] == '-' then t[..|t| - 1] else t
  }

  function Slugify(title: string): string {
    StripDashes(Collapse(Text.Lower(title)))
  }

  predicate SlugChar(c: char) {
    Text.IsLowerAlnum(c) || c == '-'
  }

  predicate NoDoubleDash(s: string) {
    forall i :: 0 <= i < |s| - 1 ==> !(s[i] == '-' && s[i + 1] == '-')
  }

  /** A well-formed slug: only [a-z0-9-], no "--", and no "-" at either end. */
  predicate IsSlug(s: string) {
    (forall i :: 0 <= i < |s| ==> SlugChar(s[i])) && NoDoubleDash(s)
    && (|s| > 0 ==> s[0] != '-' && s[|s| - 1] != '-')
  }

  lemma {:induction false} CollapseShape(s: string)
    ensures var r := Collapse(s);
            (forall i :: 0 <= i < |r| ==> SlugChar(r[i])) && NoDoubleDash(r)
            && (s != [] && Text.IsLowerAlnum(s[0]) ==> r != [] && r[0] == s[0])
    decreases |s|
  {
    if s != [] {
      if Text.IsLowerAlnum(s[0]) {
        CollapseShape(s[1..]);
      } else {
        var d := DropRun(s[1..]);
        CollapseShape(d);
        var r := Collapse(s);
        assert r == ['-'] + Collapse(d);
        assert forall i :: 0 < i < |r| ==> r[i] == Collapse(d)[i - 1];
      }
    }
  }

  /** On a text that is already collapsed, collapsing changes nothing. */
  lemma {:induction false} CollapseFixes(s: string)
    requires forall i :: 0 <= i < |s| ==> SlugChar(s[i])
    requires NoDoubleDash(s)
    ensures Collapse(s) == s
    decreases |s|
  {
    if s != [] {
      if Text.IsLowerAlnum(s[0]) {
        CollapseFixes(s[1..]);
        assert s == [s[0]] + s[1..];
      } else {
        assert DropRun(s[1..]) == s[1..];
        CollapseFixes(s[1..]);
        assert s == [s[0]] + s[1..];
      }
    }
  }

  /** Dropping one "-" at each end of a collapsed text leaves a slug. */
  lemma {:induction false} StripShape(s: string)
    requires forall i :: 0 <= i < |s| ==> SlugChar(s[i])
    requires NoDoubleDash(s)
    ensures IsSlug(StripDashes(s))
  {
    var t := if |s| > 0 && s[0] == '-' then s[1..] else s;
    assert |t| > 0 ==> t[0] != '-' by {
      if |s| > 0 && s[0] == '-' && |t| > 0 {
        assert t[0] == s[1];
      }
    }
    assert forall i :: 0 <= i < |t| ==> SlugChar(t[i]);
    assert NoDoubleDash(t);
    var r := StripDashes(s);
    assert |r| > 0 ==> r[|r| - 1] != '-' by {
      if |t| > 0 && t[|t| - 1] == '-' && |r| > 0 {
        assert r[|r| - 1] == t[|t| - 2];
      }
    }
  }

  /** A slug derived from a title is always well-formed. */
  lemma {:induction false} SlugifyIsSlug(title: string)
    ensures IsSlug(Slugify(title))
  {
    CollapseShape(Text.Lower(title));
    StripShape(Collapse(Text.Lower(title)));
  }

  /** Deriving a slug from a well-formed slug gives it back, so deriving
      twice is deriving once, and a lowercase alphanumeric title is its own
      slug. */
  lemma {:induction false} SlugifyFixesSlugs(s: string)
    requires IsSlug(s)
    ensures Slugify(s) == s
  {
    assert Text.Lower(s) == s;
    CollapseFixes(s);
  }

  lemma {:induction false} SlugifyIdempotent(title: string)
    ensures Slugify(Slugify(title)) == Slugify(title)
  {
    SlugifyIsSlug(title);
    SlugifyFixesSlugs(Slugify(title));
  }

  lemma {:induction false} AlnumTitleIsItsSlug(title: string)
    requires forall i :: 0 <= i < |title| ==> Text.IsLowerAlnum(title[i])
    ensures Slugify(title) == title
  {
    SlugifyFixesSlugs(title);
  }

  /** `slug || title.toLowerCase()...` (app/actions/blog.ts:33). None is
      the TypeError of lowercasing a missing title. */
  function ChosenSlug(slug: Option<string>, title: Option<string>): (r: Option<string>)
    ensures Forms.Truthy(slug) ==> r == slug
    ensures !Forms.Truthy(slug) && title.Some? ==> r == Some(Slugify(title.value))
    ensures r.None? <==> !Forms.Truthy(slug) && title.None?
  {
    if Forms.Truthy(slug) then slug
    else if title.Some? then Some(Slugify(title.value))
    else None
  }

  /** The stored post (app/actions/blog.ts:31-41): the author is the
      caller, the name falls back to "Admin", and the publish date is
      `now` exactly when the post is published. */
  function PostRow(title: string, slug: string, excerpt: Option<string>, content: Option<string>,
                   author: Id, authorFullName: Option<string>, isPublished: bool, now: nat): (p: BlogPost)
    ensures p.publishDate.Some? <==> p.isPublished
    ensures p.isPublished == isPublished && p.updatedAt == now && p.authorId == author
    ensures p.authorName == (if Forms.Truthy(authorFullName) then authorFullName.value else "Admin")
  {
    BlogPost(title, slug, excerpt, content, author,
             if Forms.Truthy(authorFullName) then authorFullName.value else "Admin",
             isPublished, if isPublished then Some(now) else None, now)
  }

  /** `error.message || "Failed to save blog post"`. */
  function SaveError(dbError: Option<string>): string {
    if dbError.Some? && dbError.value != "" then dbError.value else "Failed to save blog post"
  }

  /** The message Postgres gives when a written row has a null title. */
  const TitleNotNull := "null value in column \"title\" of relation \"blog_posts\" violates not-null constraint"

  /** Whether the table refuses saveBlogPost's write: the title column is
      NOT NULL, and Postgres checks it only on a row it writes, so an
      update whose id matches no post is never refused. */
  predicate BlogWriteRefused(posts: map<Id, BlogPost>, title: Option<string>, id: Option<string>) {
    title.None? && (!Forms.Truthy(id) || id.value in posts)
  }

  /** The row saveBlogPost writes for a form that carries a title. */
  function FormRow(form: Forms.FormData, title: string, user: Id, authorFullName: Option<string>, now: nat): (p: BlogPost)
    reads form
    ensures p.title == title && p.authorId == user && p.updatedAt == now
    ensures p.slug == ChosenSlug(form.Get("slug"), Some(title)).value
    ensures p.isPublished <==> Forms.IsTrueText(form.Get("isPublished"))
  {
    PostRow(title, ChosenSlug(form.Get("slug"), Some(title)).value, form.Get("excerpt"), form.Get("content"), user,
            authorFullName, Forms.IsTrueText(form.Get("isPublished")), now)
  }

  /** saveBlogPost (app/actions/blog.ts:6-62). `dbError` is the database's
      error message, if it reports one for a reason other than the title
      constraint. A present id updates that post, otherwise one is
      inserted. */
  method SaveBlogPost(db: Database, user: Option<Id>, form: Forms.FormData, now: nat, dbError: Option<string>)
    returns (res: ActionResult, ghost newId: Option<Id>)
    modifies db
    ensures AdminActions.StaffGate(user, old(db.profiles)).Some? ==>
              res == Failure(AdminActions.StaffGate(user, old(db.profiles)).value) && db.Snapshot() == old(db.Snapshot())
    ensures AdminActions.StaffGate(user, old(db.profiles)).None?
            && ChosenSlug(form.Get("slug"), form.Get("title")).None? ==>
              res == Threw && db.Snapshot() == old(db.Snapshot())
    ensures AdminActions.StaffGate(user, old(db.profiles)).None?
            && ChosenSlug(form.Get("slug"), form.Get("title")).Some? && dbError.Some? ==>
              res == Failure(SaveError(dbError)) && db.Snapshot() == old(db.Snapshot())
    ensures AdminActions.StaffGate(user, old(db.profiles)).None?
            && ChosenSlug(form.Get("slug"), form.Get("title")).Some? && dbError.None?
            && BlogWriteRefused(old(db.blogPosts), form.Get("title"), form.Get("id")) ==>
              res == Failure(TitleNotNull) && db.Snapshot() == old(db.Snapshot())
    ensures AdminActions.StaffGate(user, old(db.profiles)).None?
            && ChosenSlug(form.Get("slug"), form.Get("title")).Some? && dbError.None?
            && !BlogWriteRefused(old(db.blogPosts), form.Get("title"), form.Get("id")) ==>
              var id := form.Get("id");
              var fullName := old(db.profiles)[user.value].fullName;
              res == Success(None)
              && (Forms.Truthy(id) ==> newId.None? && db.Snapshot() == old(db.Snapshot()).(blogPosts :=
                    if id.value in old(db.blogPosts)
                    then old(db.blogPosts)[id.value := FormRow(form, form.Get("title").value, user.value, fullName, now)]
                    else old(db.blogPosts)))
              && (!Forms.Truthy(id) ==> (newId.Some? && newId.value !in old(db.blogPosts)
                    && db.Snapshot() == old(db.Snapshot()).(blogPosts :=
                         old(db.blogPosts)[newId.value := FormRow(form, form.Get("title").value, user.value, fullName, now)])))
  {
    newId := None;
    var gate := AdminActions.StaffGate(user, db.profiles);
    if gate.Some? {
      return Failure(gate.value), newId;
    }
    var title := form.Get("title");
    var slug := ChosenSlug(form.Get("slug"), title);
    if slug.None? {
      return Threw, newId;
    }
    var id := form.Get("id");
    if dbError.Some? {
      return Failure(SaveError(dbError)), newId;
    }
    if BlogWriteRefused(db.blogPosts, title, id) {
      return Failure(TitleNotNull), newId;
    }
    if Forms.Truthy(id) {
      if id.value in db.blogPosts {
        db.blogPosts := db.blogPosts[id.value := FormRow(form, title.value, user.value, db.profiles[user.value].fullName, now)];
      }
    } else {
      FreshIdExists(db.blogPosts);
      var created :| created !in db.blogPosts;
      db.blogPosts := db.blogPosts[created := FormRow(form, title.value, user.value, db.profiles[user.value].fullName, now)];
      newId := Some(created);
    }
    res := Success(None);
  }

  /** deleteBlogPost (app/actions/blog.ts:64-92). */
  method DeleteBlogPost(db: Database, user: Option<Id>, postId: Id, dbFails: bool) returns (res: ActionResult)
    modifies db
    ensures AdminActions.StaffGate(user, old(db.profiles)).Some? ==>
              res == Failure(AdminActions.StaffGate(user, old(db.profiles)).value) && db.Snapshot() == old(db.Snapshot())
    ensures AdminActions.StaffGate(user, old(db.profiles)).None? && dbFails ==>
              res == Failure("Failed to delete blog post") && db.Snapshot() == old(db.Snapshot())
    ensures AdminActions.StaffGate(user, old(db.profiles)).None? && !dbFails ==>
              res == Success(None) && db.Snapshot() == old(db.Snapshot()).(blogPosts := old(db.blogPosts) - {postId})
  {
    var gate := AdminActions.StaffGate(user, db.profiles);
    if gate.Some? {
      return Failure(gate.value);
    }
    if dbFails {
      return Failure("Failed to delete blog post");
    }
    db.blogPosts := db.blogPosts - {postId};
    res := Success(None);
  }
}
