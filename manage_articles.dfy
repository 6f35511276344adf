/** The admin article table, src/components/Dashboard/ManageArticles.jsx:
    which moderation buttons each row offers, the page control and the
    decline-reason modal. */
module ManageArticles {
  import opened Common
  import Pagination

  /** The fields of a listed article that decide its buttons. */
  datatype ArticleRow = ArticleRow(id: string, status: string, isPremium: bool)

  /** The buttons of one row; a false field shows a badge instead. */
  datatype Actions = Actions(approve: bool, decline: bool, delete: bool, makePremium: bool)

  function ActionsFor(article: ArticleRow): (actions: Actions)
    ensures actions.approve <==> article.status != "Approved"
    ensures actions.decline <==> article.status != "Declined"
    ensures actions.makePremium <==> !article.isPremium
    ensures actions.delete
  {
    Actions(article.status != "Approved", article.status != "Declined", true, !article.isPremium)
  }

  /** Every row offers at least one of Approve and Decline, and a pending
      article offers both. */
  lemma SomeVerdictAlwaysOffered(article: ArticleRow)
    ensures ActionsFor(article).approve || ActionsFor(article).decline
    ensures article.status == "Pending" ==> ActionsFor(article).approve && ActionsFor(article).decline
  {
  }

  /** The body of PATCH /articles/decline/:id. */
  datatype DeclineRequest = DeclineRequest(id: string, reason: string)

  class ArticlesTable {
    const pager: Pagination.Pager
    /** The id whose decline modal is open, or null. */
    var declineArticle: Option<string>
    var declineReason: string

    constructor ()
      ensures fresh(pager) && pager.page == 1
      ensures declineArticle == None && declineReason == "" && !ModalOpen()
    {
      pager := new Pagination.Pager();
      declineArticle := None;
      declineReason := "";
    }

    /** `{declineArticle && …}`: the modal shows for a non-empty id. */
    predicate ModalOpen()
      reads this
    {
      Truthy(declineArticle)
    }

    /** Decline on a row opens the modal for that article; the reason typed
        earlier is kept. */
    method OpenDecline(article: ArticleRow)
      requires ActionsFor(article).decline
      modifies this
      ensures declineArticle == Some(article.id) && declineReason == old(declineReason)
      ensures article.id != "" ==> ModalOpen()
    {
      declineArticle := Some(article.id);
    }

    method EditReason(text: string)
      modifies this
      ensures declineReason == text && declineArticle == old(declineArticle)
    {
      declineReason := text;
    }

    method Cancel()
      modifies this
      ensures declineArticle == None && !ModalOpen()
      ensures declineReason == old(declineReason)
    {
      declineArticle := None;
    }

    /** Submit in the modal: sends the open article's id with the reason;
        `outcome` is that of the PATCH. The modal closes only on success. */
    method SubmitDecline(outcome: Outcome) returns (sent: DeclineRequest, toast: Toast)
      requires ModalOpen()
      modifies this
      ensures sent == DeclineRequest(old(declineArticle).value, old(declineReason))
      ensures outcome.Done? ==> declineArticle == None && !ModalOpen() && toast == ToastSuccess("Article Declined")
      ensures outcome.Failed? ==> declineArticle == old(declineArticle) && ModalOpen()
                                  && toast == ToastError("Failed to decline article")
      ensures declineReason == old(declineReason)
    {
      sent := DeclineRequest(declineArticle.value, declineReason);
      if outcome.Done? {
        toast := ToastSuccess("Article Declined");
        declineArticle := None;
      } else {
        toast := ToastError("Failed to decline article");
      }
    }
  }
}
