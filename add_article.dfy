/** The article submission form, src/pages/AddArticle.jsx: the record it
    builds, the loading flag around the submit and the publisher-list
    fallback. */
module AddArticle {
  import opened Common
  import Session

  /** An option of the tags multi-select. */
  datatype TagOption = TagOption(value: string, labelText: string)

  const TagOptions: seq<TagOption> := [
    TagOption("tech", "Tech"), TagOption("health", "Health"), TagOption("politics", "Politics"),
    TagOption("sports", "Sports"), TagOption("Technology", "Technology"), TagOption("Ai", "AI"),
    TagOption("Future", "Future")
  ]

  /** A publisher as GET /publishers lists it. */
  datatype Publisher = Publisher(id: string, name: string)

  /** The publishers the select offers. `query` is the query's data: absent
      until it resolves, when the `= []` default applies; once resolved it is
      what the query function returned, which turns a null response body
      into `[]`. */
  function Publishers(query: Option<Option<seq<Publisher>>>): (list: seq<Publisher>)
    ensures query.Some? && query.value.Some? ==> list == query.value.value
    ensures query.None? || query.value.None? ==> list == []
  {
    if query.Some? then ListOrEmpty(query.value) else []
  }

  /** The option values of the publisher select: the "" placeholder, then
      each publisher's name in list order. */
  function PublisherChoices(publishers: seq<Publisher>): (values: seq<string>)
    ensures |values| == |publishers| + 1 && values[0] == ""
    ensures forall i :: 0 <= i < |publishers| ==> values[i + 1] == publishers[i].name
  {
    if |publishers| == 0 then [""] else PublisherChoices(publishers[..|publishers| - 1]) + [publishers[|publishers| - 1].name]
  }

  /** Until the list arrives, or when the server sends none, the placeholder
      is the only choice. */
  lemma NoListOnlyPlaceholder(query: Option<Option<seq<Publisher>>>)
    requires query.None? || query.value.None?
    ensures PublisherChoices(Publishers(query)) == [""]
  {
  }

  /** The form values, as the form library hands them to `onSubmit`. */
  datatype ArticleForm = ArticleForm(title: string, publisher: string, tags: seq<TagOption>, description: string)

  /** The values after `reset()`. */
  const EmptyForm := ArticleForm("", "", [], "")

  datatype Article = Article(
    title: string, image: string, publisher: string, tags: seq<string>, description: string,
    authorName: Option<string>, authorImage: Option<string>, authorEmail: Option<string>,
    status: string, isPremium: bool, views: int)

  /** `tags.map(tag => tag.value)`. */
  function TagValues(tags: seq<TagOption>): (values: seq<string>)
    ensures |values| == |tags|
    ensures forall i :: 0 <= i < |tags| ==> values[i] == tags[i].value
  {
    if |tags| == 0 then [] else [tags[0].value] + TagValues(tags[1..])
  }

  /** The record posted to /articles. */
  function NewArticle(form: ArticleForm, imageUrl: string, user: Session.CurrentUser): (a: Article)
    // a new article awaits moderation, is free and has not been viewed
    ensures a.status == "Pending" && !a.isPremium && a.views == 0
    // the image is the uploaded one and the tags are the selected values in order
    ensures a.image == imageUrl
    ensures |a.tags| == |form.tags| && forall i :: 0 <= i < |form.tags| ==> a.tags[i] == form.tags[i].value
    // the author is the signed-in user
    ensures a.authorName == user.name && a.authorImage == user.image && a.authorEmail == user.email
    ensures a.title == form.title && a.publisher == form.publisher && a.description == form.description
  {
    Article(form.title, imageUrl, form.publisher, TagValues(form.tags), form.description,
            user.name, user.image, user.email, "Pending", false, 0)
  }

  class AddArticleForm {
    var loading: bool
    var values: ArticleForm

    constructor ()
      ensures !loading && values == EmptyForm
    {
      loading := false;
      values := EmptyForm;
    }

    /** `onSubmit`. `user` is the published user (absent when none was
        published), `upload` the outcome of the image upload, `post` that of
        POST /articles. Returns the record posted, if one was, and the toast. */
    method OnSubmit(user: Option<Session.CurrentUser>, upload: Result<string>, post: Outcome)
      returns (posted: Option<Article>, toast: Toast)
      modifies this
      ensures !loading
      ensures posted == if upload.Ok? && user.Some? then Some(NewArticle(old(values), upload.value, user.value)) else None
      // the form is reset only when the article was accepted
      ensures values == if posted.Some? && post.Done? then EmptyForm else old(values)
      ensures toast == if posted.Some? && post.Done? then ToastSuccess("Article submitted for review")
                       else ToastError("Submission failed. Try again.")
    {
      loading := true;
      posted := None;
      if upload.Err? {
        toast := ToastError("Submission failed. Try again.");
      } else if user.None? {
        // reading `user.name` of null throws
        toast := ToastError("Submission failed. Try again.");
      } else {
        posted := Some(NewArticle(values, upload.value, user.value));
        if post.Done? {
          toast := ToastSuccess("Article submitted for review");
          values := EmptyForm;
        } else {
          toast := ToastError("Submission failed. Try again.");
        }
      }
      loading := false;
    }
  }
}
