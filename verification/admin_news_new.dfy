/** The admin page that writes a new article: a form that only ever creates. */
module AdminNewsNew {
  import opened Js
  import opened Query
  import opened NewsLinks
  import News

  /** A snapshot of every field of the form. */
  datatype FormState = FormState(
    title: string, content: string, image: string, excerpt: string, author: string,
    category: string, featured: bool, links: seq<Link>, previewUrl: string,
    submitting: bool, error: string)

  class NewArticleForm {
    var title: string
    var content: string
    var image: string
    var excerpt: string
    var author: string
    var category: string
    var featured: bool
    var links: seq<Link>
    var previewUrl: string
    var submitting: bool
    var error: string

    function State(): FormState
      reads this
    {
      FormState(title, content, image, excerpt, author, category, featured, links, previewUrl,
                submitting, error)
    }

    /** The initial state: empty fields, category `GENERAL`, not featured, one blank link,
        not submitting. */
    constructor ()
      ensures title == "" && content == "" && image == "" && excerpt == "" && author == ""
      ensures category == "GENERAL" && !featured && previewUrl == "" && !submitting && error == ""
      ensures |links| == 1 && fresh(links[0]) && links[0].text == "" && links[0].url == ""
    {
      title, content, image, excerpt, author := "", "", "", "", "";
      category, featured, previewUrl := "GENERAL", false, "";
      var blank := new Link.Blank();
      links := [blank];
      submitting, error := false, "";
    }

    method AddLink()
      modifies this
      ensures |links| == |old(links)| + 1 && links[..|old(links)|] == old(links)
      ensures fresh(links[|old(links)|]) && links[|old(links)|].text == "" && links[|old(links)|].url == ""
      ensures State() == old(State()).(links := links)
    {
      links := NewsLinks.AddLink(links);
    }

    method RemoveLink(index: int)
      modifies this
      ensures State() == old(State()).(links := WithoutIndex(old(links), index))
    {
      links := WithoutIndex(links, index);
    }

    method UpdateLink(index: int, field: LinkField, value: string) returns (ok: bool)
      modifies this, if 0 <= index < |links| then {links[index]} else {}
      ensures State() == old(State())
      ensures ok <==> 0 <= index < |links|
      ensures ok && field == TextField ==> links[index].text == value && links[index].url == old(links[index].url)
      ensures ok && field == UrlField ==> links[index].url == value && links[index].text == old(links[index].text)
      ensures forall k :: 0 <= k < |links| && (!ok || links[k] != links[index]) ==>
                links[k].text == old(links[k].text) && links[k].url == old(links[k].url)
    {
      var next;
      next, ok := NewsLinks.UpdateLink(links, index, field, value);
      links := next;
    }

    /** The `POST` body: the eight fields, with the links filtered. */
    function Body(): (v: Val)
      reads this, links
      ensures v.Obj? && "id" !in v.fields && "previewUrl" !in v.fields
      ensures v.fields.Keys == {"title", "content", "image", "excerpt", "author", "category", "featured", "links"}
      ensures "links" in v.fields && v.fields["links"] == LinksVal(FilterLinks(Values(links)))
      ensures Get(v, "title") == Str(title) && Get(v, "content") == Str(content) && Get(v, "image") == Str(image)
      ensures Get(v, "excerpt") == Str(excerpt) && Get(v, "author") == Str(author)
      ensures Get(v, "category") == Str(category) && Get(v, "featured") == Bool(featured)
    {
      Obj(map["content" := Str(content), "image" := Str(image), "excerpt" := Str(excerpt),
              "author" := Str(author), "title" := Str(title), "category" := Str(category),
              "featured" := Bool(featured), "links" := LinksVal(FilterLinks(Values(links)))])
    }

    /** `onSubmit`. `ok` is whether the request succeeded. It sends the body, navigates to
        `/admin/news` only on success, and is no longer submitting afterwards either way. */
    method Submit(ok: bool, serverError: Option<string>) returns (body: Val, navigateTo: Option<string>)
      modifies this
      ensures body == old(Body())
      ensures !submitting
      ensures navigateTo.Some? <==> ok
      ensures ok ==> navigateTo == Some("/admin/news") && error == ""
      ensures !ok ==> error == if Given(serverError) then serverError.value else "Failed to create article"
      ensures State() == old(State()).(submitting := false, error := error)
    {
      submitting := true;
      error := "";
      body := Body();
      navigateTo := None;
      if ok {
        navigateTo := Some("/admin/news");
      } else {
        error := if Given(serverError) then serverError.value else "Failed to create article";
      }
      submitting := false;
    }
  }

  /** A body the form builds passes the `POST /api/news` field check exactly when the six
      required fields are filled in. */
  lemma BodyRequiredFields(form: NewArticleForm)
    ensures News.HasRequired(form.Body()) <==>
              form.title != "" && form.content != "" && form.image != "" && form.excerpt != ""
              && form.author != "" && form.category != ""
  {
  }
}
