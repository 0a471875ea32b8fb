/** The article admin of the public site's back office (admin/home/articles/admin.py): ARTICLES_MANAGER
    members handle every article, ARTICLES_OPERATOR members only their own, and categories and tags are
    managed by managers and superusers. The group checks run in a fixed order, managers first, then
    operators, then superusers, so an operator who is also a superuser is treated as an operator. */
module HomeArticleAdmin {
  import opened Common
  import Articles

  type ArticleId = nat

  /** `ArticleAdmin.get_queryset` */
  function QuerysetScope(user: Principal): Articles.Scope
  {
    if InGroup(user, ARTICLES_MANAGER) then Articles.AllArticles
    else if InGroup(user, ARTICLES_OPERATOR) then Articles.OwnArticles
    else if user.isSuperuser then Articles.AllArticles
    else Articles.NoArticles
  }

  /** The shared body of `has_change_permission` and `has_delete_permission`: `base` is the permission the
      parent class grants, `obj` the article's author when an article is given (`None` for the list-level
      check). */
  predicate ObjectPermission(user: Principal, base: bool, obj: Option<Option<UserId>>)
  {
    if !base then false
    else if obj.None? then true
    else if InGroup(user, ARTICLES_MANAGER) then true
    else if InGroup(user, ARTICLES_OPERATOR) then obj.value == Some(user.id)
    else user.isSuperuser
  }

  /** Visibility by role, in the order the checks run: a manager sees everything; an operator who is not a
      manager sees only its own articles even as a superuser; a superuser with neither role sees everything;
      everyone else sees nothing. */
  lemma VisibilityByRole(user: Principal, author: Option<UserId>)
    ensures InGroup(user, ARTICLES_MANAGER) ==> QuerysetScope(user) == Articles.AllArticles
    ensures InGroup(user, ARTICLES_OPERATOR) && !InGroup(user, ARTICLES_MANAGER) ==>
      (Articles.InScope(QuerysetScope(user), user.id, author) <==> author == Some(user.id))
    ensures Articles.InScope(QuerysetScope(user), user.id, author) <==>
      InGroup(user, ARTICLES_MANAGER) || (InGroup(user, ARTICLES_OPERATOR) && author == Some(user.id))
      || (!InGroup(user, ARTICLES_OPERATOR) && user.isSuperuser)
  {
  }

  /** On a given article with the parent permission granted, changing (and deleting) is allowed exactly for
      the articles the requester's list shows; without the parent permission nothing is allowed; without an
      article the parent permission decides. */
  lemma PermissionMatchesVisibility(user: Principal, base: bool, author: Option<UserId>)
    ensures ObjectPermission(user, true, Some(author)) <==> Articles.InScope(QuerysetScope(user), user.id, author)
    ensures !base ==> !ObjectPermission(user, base, Some(author)) && !ObjectPermission(user, base, None)
    ensures ObjectPermission(user, base, None) == base
  {
  }

  /** What `save_model` does: it either saves with the given author or raises `PermissionDenied`. */
  datatype SaveOutcome = Saved(author: Option<UserId>) | Denied

  /** A requester in ARTICLES_OPERATOR without the manager role or superuser status. */
  predicate OperatorOnly(user: Principal)
  {
    InGroup(user, ARTICLES_OPERATOR) && !InGroup(user, ARTICLES_MANAGER) && !user.isSuperuser
  }

  /** `ArticleAdmin.save_model`: an added article, or one without an author, gets the requester as author;
      otherwise an operator-only requester may save only its own article. */
  function SaveModelOutcome(change: bool, author: Option<UserId>, user: Principal): SaveOutcome
  {
    if !change then Saved(Some(user.id))
    else if author.None? then Saved(Some(user.id))
    else if OperatorOnly(user) && author != Some(user.id) then Denied
    else Saved(author)
  }

  /** `ArticleAdmin.delete_model` refuses exactly this: an operator-only requester and an article that is not
      its own (an article without an author included). */
  predicate DeleteDenied(user: Principal, author: Option<UserId>)
  {
    OperatorOnly(user) && author != Some(user.id)
  }

  /** `save_model` case by case: every saved article has an author; the requester becomes the author of a new
      or authorless article; an existing author is kept; and the refusal happens exactly for an operator-only
      requester editing another author's article. */
  lemma SaveModelCases(change: bool, author: Option<UserId>, user: Principal)
    ensures SaveModelOutcome(change, author, user).Saved? ==> SaveModelOutcome(change, author, user).author.Some?
    ensures !change || author.None? ==> SaveModelOutcome(change, author, user) == Saved(Some(user.id))
    ensures change && author.Some? ==>
      (SaveModelOutcome(change, author, user) == Denied <==> OperatorOnly(user) && author != Some(user.id))
    ensures change && author.Some? && SaveModelOutcome(change, author, user).Saved? ==>
      SaveModelOutcome(change, author, user).author == author
  {
  }

  /** The save and delete guards never refuse what the permission checks allow. For managers, for
      operator-only requesters and for superusers outside the operator group they refuse exactly what the
      permission checks forbid. The two disagree for a superuser operator, whom the permission checks confine
      to its own articles but the guards let through, and for a requester with neither role nor superuser
      status, who is stopped by the permission checks only. */
  lemma GuardsAgreeWithPermissions(user: Principal, author: UserId)
    ensures SaveModelOutcome(true, Some(author), user) == Denied ==> !ObjectPermission(user, true, Some(Some(author)))
    ensures DeleteDenied(user, Some(author)) ==> !ObjectPermission(user, true, Some(Some(author)))
    ensures InGroup(user, ARTICLES_MANAGER) || OperatorOnly(user) || (user.isSuperuser && !InGroup(user, ARTICLES_OPERATOR)) ==>
      (DeleteDenied(user, Some(author)) <==> !ObjectPermission(user, true, Some(Some(author))))
      && (SaveModelOutcome(true, Some(author), user) == Denied <==> !ObjectPermission(user, true, Some(Some(author))))
    ensures user.isSuperuser && InGroup(user, ARTICLES_OPERATOR) && !InGroup(user, ARTICLES_MANAGER) && author != user.id ==>
      !DeleteDenied(user, Some(author)) && SaveModelOutcome(true, Some(author), user) == Saved(Some(author))
      && !ObjectPermission(user, true, Some(Some(author)))
    ensures !InGroup(user, ARTICLES_MANAGER) && !InGroup(user, ARTICLES_OPERATOR) && !user.isSuperuser ==>
      !DeleteDenied(user, Some(author)) && !ObjectPermission(user, true, Some(Some(author)))
  {
  }

  /** The stored articles, by key, with their authors. */
  class ArticleStore {
    var authors: map<ArticleId, Option<UserId>>

    constructor ()
      ensures authors == map[]
    {
      authors := map[];
    }

    /** `save_model` on the article `id` whose author (before the call) is `author`. */
    method SaveModel(id: ArticleId, author: Option<UserId>, change: bool, user: Principal) returns (denied: bool)
      modifies this
      ensures denied <==> SaveModelOutcome(change, author, user) == Denied
      ensures denied ==> authors == old(authors)
      ensures !denied ==> authors == old(authors)[id := SaveModelOutcome(change, author, user).author]
    {
      var newAuthor := author;
      if !change {
        newAuthor := Some(user.id);
      } else if author.None? {
        newAuthor := Some(user.id);
      } else if InGroup(user, ARTICLES_OPERATOR) && !InGroup(user, ARTICLES_MANAGER) && !user.isSuperuser
                && author != Some(user.id) {
        return true;
      }
      authors := authors[id := newAuthor];
      denied := false;
    }

    /** `delete_model` on the stored article `id`. */
    method DeleteModel(id: ArticleId, user: Principal) returns (denied: bool)
      requires id in authors
      modifies this
      ensures denied == DeleteDenied(user, old(authors)[id])
      ensures authors == if denied then old(authors) else old(authors) - {id}
    {
      if InGroup(user, ARTICLES_OPERATOR) && !InGroup(user, ARTICLES_MANAGER) && !user.isSuperuser
         && authors[id] != Some(user.id) {
        return true;
      }
      authors := authors - {id};
      denied := false;
    }
  }

  /** `ArticleCategoryAdmin.has_add_permission`, `has_change_permission`, `has_delete_permission` and
      `ArticleTagAdmin.has_delete_permission` all share this test. */
  predicate CategoryPermission(user: Principal)
  {
    if user.isSuperuser then true else InGroup(user, ARTICLES_MANAGER)
  }

  /** Categories and tags are managed by superusers and managers only: an operator-only requester may not,
      and a superuser operator may manage categories although its article list is restricted to its own. */
  lemma CategoryPermissionByRole(user: Principal)
    ensures CategoryPermission(user) <==> user.isSuperuser || InGroup(user, ARTICLES_MANAGER)
    ensures OperatorOnly(user) ==> !CategoryPermission(user)
    ensures CategoryPermission(user) && !InGroup(user, ARTICLES_OPERATOR) ==> QuerysetScope(user) == Articles.AllArticles
    ensures user.isSuperuser && InGroup(user, ARTICLES_OPERATOR) && !InGroup(user, ARTICLES_MANAGER) ==>
      CategoryPermission(user) && QuerysetScope(user) == Articles.OwnArticles
  {
  }
}
