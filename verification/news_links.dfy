/** The list of related links both article forms edit. A link is an object: `updateLink`
    copies the array but writes into the link object itself, so whoever else holds that
    object (the previous state, or the article list the form was filled from) sees the
    change too. */
module NewsLinks {
  import opened Js
  import opened Text
  import opened Query

  class Link {
    var text: string
    var url: string

    /** `{ text: '', url: '' }` */
    constructor Blank()
      ensures text == "" && url == ""
    {
      text := "";
      url := "";
    }
  }

  datatype LinkField = TextField | UrlField

  /** The contents of a link, as `JSON.stringify` sends it. */
  datatype LinkValue = LinkValue(text: string, url: string)

  function Values(links: seq<Link>): (r: seq<LinkValue>)
    reads links
    ensures |r| == |links|
    ensures forall k :: 0 <= k < |links| ==> r[k] == LinkValue(links[k].text, links[k].url)
  {
    seq(|links|, k reads links requires 0 <= k < |links| => LinkValue(links[k].text, links[k].url))
  }

  /** `addLink`: a new array with one new blank link at the end. */
  method AddLink(links: seq<Link>) returns (r: seq<Link>)
    ensures |r| == |links| + 1 && r[..|links|] == links
    ensures fresh(r[|links|]) && r[|links|].text == "" && r[|links|].url == ""
  {
    var blank := new Link.Blank();
    r := links + [blank];
  }

  /** `updateLink(index, field, value)`: the array is copied, and the link object at `index`
      gets the new value in place. An index past the end throws before anything is written
      (`ok` is false). */
  method UpdateLink(links: seq<Link>, index: int, field: LinkField, value: string) returns (r: seq<Link>, ok: bool)
    modifies if 0 <= index < |links| then {links[index]} else {}
    ensures ok <==> 0 <= index < |links|
    ensures r == links
    ensures ok && field == TextField ==> links[index].text == value && links[index].url == old(links[index].url)
    ensures ok && field == UrlField ==> links[index].url == value && links[index].text == old(links[index].text)
    ensures forall k :: 0 <= k < |links| && (!ok || links[k] != links[index]) ==>
              links[k].text == old(links[k].text) && links[k].url == old(links[k].url)
  {
    r := links;
    ok := 0 <= index < |links|;
    if ok {
      match field {
        case TextField => links[index].text := value;
        case UrlField => links[index].url := value;
      }
    }
  }

  /** Both text and URL are non-blank after trimming. */
  predicate Complete(l: LinkValue)
  {
    Trim(l.text) != "" && Trim(l.url) != ""
  }

  /** `links.filter(link => link.text.trim() && link.url.trim())` */
  function FilterLinks(links: seq<LinkValue>): (r: seq<LinkValue>)
    ensures |r| <= |links|
  {
    Filter(links, Complete)
  }

  /** The submitted links are an order-preserving subsequence holding exactly the complete
      links, and filtering them again changes nothing. */
  lemma FilterLinksProperties(links: seq<LinkValue>)
    ensures IsSubsequence(FilterLinks(links), links)
    ensures forall i :: 0 <= i < |FilterLinks(links)| ==> Complete(FilterLinks(links)[i])
    ensures forall i :: 0 <= i < |links| && Complete(links[i]) ==> links[i] in FilterLinks(links)
    ensures FilterLinks(FilterLinks(links)) == FilterLinks(links)
  {
    FilterIsSubsequence(links, Complete);
    FilterKeepsAll(FilterLinks(links), Complete);
  }

  /** A blank link is never submitted. */
  lemma BlankLinkDropped(links: seq<LinkValue>)
    ensures FilterLinks(links + [LinkValue("", "")]) == FilterLinks(links)
  {
    FilterAppend(links, [LinkValue("", "")], Complete);
    assert Trim("") == "";
  }

  /** The links as the request body carries them. */
  function LinksVal(links: seq<LinkValue>): (v: Val)
    ensures v.Arr? && |v.items| == |links|
    ensures forall k :: 0 <= k < |links| ==>
              v.items[k].Obj? && v.items[k].fields.Keys == {"text", "url"}
              && Get(v.items[k], "text") == Str(links[k].text) && Get(v.items[k], "url") == Str(links[k].url)
  {
    Arr(seq(|links|, k requires 0 <= k < |links| =>
      Obj(map["text" := Str(links[k].text), "url" := Str(links[k].url)])))
  }
}
