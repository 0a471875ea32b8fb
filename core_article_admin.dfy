/** The article admin of the core back office (backend/core/articles/admin.py): the author is filled in from
    the requester when missing, and only superusers list other people's articles. */
module CoreArticleAdmin {
  import opened Common
  import Articles

  /** `save_model`: an article without an author takes the requester. */
  function AuthorOnAdminSave(author: Option<UserId>, requester: UserId): Option<UserId>
  {
    if author.None? then Some(requester) else author
  }

  /** `get_queryset` */
  function QuerysetScope(user: Principal): Articles.Scope
  {
    if user.isSuperuser then Articles.AllArticles else Articles.OwnArticles
  }

  /** After `save_model` the article always has an author, an existing author is never overwritten, and the
      choice is the one `Article.save` makes when given the requester as its `user` argument. */
  lemma AdminSaveRules(author: Option<UserId>, requester: UserId, request: Option<Option<Articles.RequestUser>>)
    ensures AuthorOnAdminSave(author, requester).Some?
    ensures author.Some? ==> AuthorOnAdminSave(author, requester) == author
    ensures AuthorOnAdminSave(author, requester) == Articles.AuthorOnSave(author, Some(requester), request)
  {
    Articles.AuthorSelection(author, Some(requester), request);
  }

  /** Superusers list every article; everyone else lists exactly the articles it wrote. */
  lemma VisibilityByRole(user: Principal, author: Option<UserId>)
    ensures Articles.InScope(QuerysetScope(user), user.id, author) <==> user.isSuperuser || author == Some(user.id)
  {
  }

  /** `save_model` on an article object. */
  method SaveModel(obj: Articles.Article, requester: UserId)
    modifies obj`author
    ensures obj.author == AuthorOnAdminSave(old(obj.author), requester)
  {
    if obj.author.None? {
      obj.author := Some(requester);
    }
  }
}
