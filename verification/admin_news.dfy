/** The admin news page: one form that creates an article, or edits the one picked from the
    list. */
module AdminNews {
  import opened Js
  import opened Query
  import opened NewsLinks
  import News

  /** An article of the list the page loaded; its links are the objects the form is filled with. */
  datatype ListedArticle = ListedArticle(
    id: string, title: string, content: string, image: string, excerpt: string, author: string,
    category: string, featured: bool, links: seq<Link>)

  /** The request `handleSubmit` sends. */
  datatype Request = Request(httpMethod: string, body: Val)

  /** A snapshot of every field of the form. */
  datatype FormState = FormState(
    title: string, content: string, image: string, excerpt: string, author: string,
    category: string, featured: bool, links: seq<Link>, previewUrl: string,
    editing: Option<string>, message: string, error: string)

  /** The form fields and the article being edited, if any. */
  class NewsForm {
    var title: string
    var content: string
    var image: string
    var excerpt: string
    var author: string
    var category: string
    var featured: bool
    var links: seq<Link>
    var previewUrl: string
    var editing: Option<string>
    var message: string
    var error: string

    function State(): FormState
      reads this
    {
      FormState(title, content, image, excerpt, author, category, featured, links, previewUrl,
                editing, message, error)
    }

    /** The form is blank: empty fields, category `GENERAL`, not featured, one blank link. */
    predicate IsBlank()
      reads this, links
    {
      && title == "" && content == "" && image == "" && excerpt == "" && author == ""
      && category == "GENERAL" && !featured && previewUrl == ""
      && |links| == 1 && links[0].text == "" && links[0].url == ""
    }

    constructor ()
      ensures IsBlank() && editing.None? && message == "" && error == ""
    {
      title, content, image, excerpt, author := "", "", "", "", "";
      category, featured, previewUrl := "GENERAL", false, "";
      var blank := new Link.Blank();
      links := [blank];
      editing, message, error := None, "", "";
    }

    /** `handleEdit`: the form takes the article's fields and its link objects themselves, or
        one blank link when it has none. */
    method Edit(article: ListedArticle)
      modifies this
      ensures editing == Some(article.id)
      ensures title == article.title && content == article.content && image == article.image
      ensures excerpt == article.excerpt && author == article.author && category == article.category
      ensures featured == article.featured && previewUrl == ""
      ensures |article.links| > 0 ==> links == article.links
      ensures |article.links| == 0 ==> |links| == 1 && fresh(links[0]) && links[0].text == "" && links[0].url == ""
      ensures message == old(message) && error == old(error)
    {
      editing := Some(article.id);
      title, content, image := article.title, article.content, article.image;
      excerpt, author, category := article.excerpt, article.author, article.category;
      featured, previewUrl := article.featured, "";
      if |article.links| > 0 {
        links := article.links;
      } else {
        var blank := new Link.Blank();
        links := [blank];
      }
    }

    method AddLink()
      modifies this
      ensures |links| == |old(links)| + 1 && links[..|old(links)|] == old(links)
      ensures fresh(links[|old(links)|]) && links[|old(links)|].text == "" && links[|old(links)|].url == ""
      ensures State() == old(State()).(links := links)
    {
      links := NewsLinks.AddLink(links);
    }

    method RemoveLink(index: int)
      modifies this
      ensures State() == old(State()).(links := WithoutIndex(old(links), index))
    {
      links := WithoutIndex(links, index);
    }

    /** `updateLink`: writes into the link object, which the article list may share. */
    method UpdateLink(index: int, field: LinkField, value: string) returns (ok: bool)
      modifies this, if 0 <= index < |links| then {links[index]} else {}
      ensures State() == old(State())
      ensures ok <==> 0 <= index < |links|
      ensures ok && field == TextField ==> links[index].text == value && links[index].url == old(links[index].url)
      ensures ok && field == UrlField ==> links[index].url == value && links[index].text == old(links[index].text)
      ensures forall k :: 0 <= k < |links| && (!ok || links[k] != links[index]) ==>
                links[k].text == old(links[k].text) && links[k].url == old(links[k].url)
    {
      var next;
      next, ok := NewsLinks.UpdateLink(links, index, field, value);
      links := next;
    }

    /** The body `handleSubmit` builds: the id first when editing, then every form field
        (the preview URL included), with the links filtered. */
    function Body(): (v: Val)
      reads this, links
      ensures v.Obj?
      ensures editing.Some? <==> "id" in v.fields
      ensures editing.Some? ==> v.fields["id"] == Str(editing.value)
      ensures "links" in v.fields && v.fields["links"] == LinksVal(FilterLinks(Values(links)))
      ensures v.fields.Keys == {"title", "content", "image", "excerpt", "author", "category", "featured",
                                "links", "previewUrl"} + (if editing.Some? then {"id"} else {})
      ensures Get(v, "title") == Str(title) && Get(v, "content") == Str(content) && Get(v, "image") == Str(image)
      ensures Get(v, "excerpt") == Str(excerpt) && Get(v, "author") == Str(author)
      ensures Get(v, "category") == Str(category) && Get(v, "previewUrl") == Str(previewUrl)
      ensures Get(v, "featured") == Bool(featured)
    {
      var fields := Fields();
      if editing.Some? then Obj(fields["id" := Str(editing.value)]) else Obj(fields)
    }

    /** The form fields of the body, without the id. */
    function Fields(): (f: map<string, Val>)
      reads this, links
      ensures f.Keys == {"title", "content", "image", "excerpt", "author", "category", "featured",
                         "links", "previewUrl"}
      ensures f["title"] == Str(title) && f["content"] == Str(content) && f["image"] == Str(image)
      ensures f["excerpt"] == Str(excerpt) && f["author"] == Str(author)
      ensures f["category"] == Str(category) && f["previewUrl"] == Str(previewUrl)
      ensures f["featured"] == Bool(featured) && f["links"] == LinksVal(FilterLinks(Values(links)))
    {
      map["content" := Str(content), "image" := Str(image), "excerpt" := Str(excerpt),
          "author" := Str(author), "previewUrl" := Str(previewUrl), "title" := Str(title),
          "category" := Str(category), "featured" := Bool(featured),
          "links" := LinksVal(FilterLinks(Values(links)))]
    }

    /** The reset after a successful save: a blank form, out of edit mode. */
    method Reset()
      modifies this
      ensures IsBlank() && editing.None? && fresh(links[0])
      ensures message == old(message) && error == old(error)
    {
      title, content, image, excerpt, author := "", "", "", "", "";
      category, featured, previewUrl := "GENERAL", false, "";
      var blank := new Link.Blank();
      links := [blank];
      editing := None;
    }

    /** `handleSubmit`. `ok` is whether the request succeeded and `serverError` the `error`
        field of a failed reply. On success the form is reset and leaves edit mode; on failure
        it keeps its state and shows the error. */
    method Submit(ok: bool, serverError: Option<string>) returns (request: Request)
      modifies this
      ensures request.httpMethod == (if old(editing).Some? then "PUT" else "POST")
      ensures request.body == old(Body())
      ensures ok ==> IsBlank() && editing.None? && fresh(links[0])
      ensures ok ==> message == "Article " + (if old(editing).Some? then "updated" else "created") + " successfully"
      ensures ok ==> error == old(error)
      ensures !ok ==> State() == old(State()).(error := error)
      ensures !ok ==> error == if Given(serverError) then serverError.value
                               else "Failed to " + (if old(editing).Some? then "update" else "create") + " article"
    {
      var isEditing := editing.Some?;
      request := Request(if isEditing then "PUT" else "POST", Body());
      if ok {
        Reset();
        message := "Article " + (if isEditing then "updated" else "created") + " successfully";
      } else {
        error := if Given(serverError) then serverError.value
                 else "Failed to " + (if isEditing then "update" else "create") + " article";
      }
    }
  }

  /** A body the form builds passes the `POST /api/news` field check exactly when the six
      required fields are filled in. */
  lemma BodyRequiredFields(form: NewsForm)
    ensures News.HasRequired(form.Body()) <==>
              form.title != "" && form.content != "" && form.image != "" && form.excerpt != ""
              && form.author != "" && form.category != ""
  {
  }

  /** A body built in edit mode carries the id `PUT /api/news` looks for. */
  lemma EditBodyHasId(form: NewsForm)
    requires form.editing.Some? && form.editing.value != ""
    ensures Truthy(Get(form.Body(), "id")) && Get(form.Body(), "id") == Str(form.editing.value)
  {
  }
}
