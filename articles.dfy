/** Articles and the writer/editor flags of staff users (backend/core/articles/models.py): how `Article.save`
    chooses an author, and the validation that keeps the writer and editor flags for staff. */
module Articles {
  import opened Common

  /** Which articles an admin list shows: all, only those the requester wrote, or none. */
  datatype Scope = AllArticles | OwnArticles | NoArticles

  /** Whether an article with the given author is in the scope for this requester. */
  predicate InScope(scope: Scope, requester: UserId, author: Option<UserId>)
  {
    match scope
    case AllArticles => true
    case OwnArticles => author == Some(requester)
    case NoArticles => false
  }

  /** The user attached to a request: its key and whether it is authenticated (an anonymous user is not). */
  datatype RequestUser = RequestUser(id: UserId, isAuthenticated: bool)

  /** `Article.save`: an article without an author takes the `user` keyword argument when one is given, else
      the user of the `request` keyword argument when there is a request, it carries a user and that user is
      authenticated. `request` is `None` when no request is passed and `Some(None)` for a request without a
      user. */
  function AuthorOnSave(author: Option<UserId>, user: Option<UserId>, request: Option<Option<RequestUser>>): Option<UserId>
  {
    if author.Some? then author
    else if user.Some? then user
    else if request.Some? && request.value.Some? && request.value.value.isAuthenticated then Some(request.value.value.id)
    else author
  }

  /** An existing author is never replaced; the `user` argument wins over the request; the request's user is
      taken exactly when it is authenticated; and the author is otherwise left unset. */
  lemma AuthorSelection(author: Option<UserId>, user: Option<UserId>, request: Option<Option<RequestUser>>)
    ensures author.Some? ==> AuthorOnSave(author, user, request) == author
    ensures author.None? && user.Some? ==> AuthorOnSave(author, user, request) == user
    ensures author.None? && user.None? ==>
      (AuthorOnSave(author, user, request).Some? <==> request.Some? && request.value.Some? && request.value.value.isAuthenticated)
    ensures AuthorOnSave(author, user, request).Some? && author.None? && user.None? ==>
      AuthorOnSave(author, user, request) == Some(request.value.value.id)
    ensures AuthorOnSave(AuthorOnSave(author, user, request), user, request) == AuthorOnSave(author, user, request)
  {
  }

  /** An `Article` row; only the author takes part in the rules modelled here. */
  class Article {
    var author: Option<UserId>
    var title: string

    constructor (title: string, author: Option<UserId>)
      ensures this.title == title && this.author == author
    {
      this.title := title;
      this.author := author;
    }

    /** `save(user=..., request=...)` */
    method Save(user: Option<UserId>, request: Option<Option<RequestUser>>)
      modifies this`author
      ensures author == AuthorOnSave(old(author), user, request)
    {
      if author.None? {
        if user.Some? {
          author := user;
        } else if request.Some? && request.value.Some? && request.value.value.isAuthenticated {
          author := Some(request.value.value.id);
        }
      }
    }
  }

  /** The two flags `clean` may reject. */
  datatype WriterField = IsArticleWriter | IsArticleEditor

  /** The columns `AbstractIsArticleWriterStaff.clean` reads. */
  datatype WriterFlags = WriterFlags(isStaff: bool, isArticleWriter: bool, isArticleEditor: bool)

  /** The fields `clean` reports: each writer/editor flag that is set on a non-staff user. */
  function CleanErrors(f: WriterFlags): set<WriterField>
  {
    (if !f.isStaff && f.isArticleWriter then {IsArticleWriter} else {})
    + (if !f.isStaff && f.isArticleEditor then {IsArticleEditor} else {})
  }

  /** Each flag is reported exactly when it is set on a non-staff user, both are reported together when both
      are set, and a staff user passes whatever the flags say. */
  lemma CleanErrorsCases(f: WriterFlags)
    ensures IsArticleWriter in CleanErrors(f) <==> !f.isStaff && f.isArticleWriter
    ensures IsArticleEditor in CleanErrors(f) <==> !f.isStaff && f.isArticleEditor
    ensures CleanErrors(f) == {} <==> f.isStaff || (!f.isArticleWriter && !f.isArticleEditor)
    ensures f.isStaff ==> CleanErrors(f) == {}
  {
    if !f.isStaff && f.isArticleWriter {
      assert IsArticleWriter in CleanErrors(f);
    }
    if !f.isStaff && f.isArticleEditor {
      assert IsArticleEditor in CleanErrors(f);
    }
  }

  /** A user row carrying the writer/editor flags, with the flags last written to the database. */
  class WriterStaff {
    var flags: WriterFlags
    var stored: Option<WriterFlags>

    /** Every stored row passes `clean`. */
    predicate Valid()
      reads this
    {
      stored.Some? ==> CleanErrors(stored.value) == {}
    }

    constructor (flags: WriterFlags)
      ensures this.flags == flags && stored == None && Valid()
    {
      this.flags := flags;
      stored := None;
    }

    /** `clean`: the errors dictionary built field by field. */
    method Clean() returns (errors: set<WriterField>)
      ensures errors == CleanErrors(flags)
      ensures errors == {} <==> flags.isStaff || (!flags.isArticleWriter && !flags.isArticleEditor)
    {
      CleanErrorsCases(flags);
      errors := {};
      if !flags.isStaff {
        if flags.isArticleWriter {
          errors := errors + {IsArticleWriter};
        }
        if flags.isArticleEditor {
          errors := errors + {IsArticleEditor};
        }
      }
    }

    /** `save`: `full_clean` first; a rejected row is not written. */
    method Save() returns (errors: set<WriterField>)
      requires Valid()
      modifies this`stored
      ensures Valid()
      ensures errors == CleanErrors(flags)
      ensures errors == {} ==> stored == Some(flags)
      ensures errors != {} ==> stored == old(stored)
    {
      errors := Clean();
      if errors == {} {
        stored := Some(flags);
      }
    }
  }
}
