/** components/visit/visitcard1.tsx: the older, stateless visit card. It has
    its own copy of `extractThumbnail` (taking a plain string) and renders a
    link, the thumbnail and the title. */
module VisitCardLite {
  import opened Js
  import opened Records
  import opened ImgSrcPattern
  import VisitCard

  /** This file's `extractThumbnail(content: string)`. */
  function ExtractThumbnail(content: string): (r: Option<string>)
    ensures content == "" ==> r.None?
    ensures r.Some? ==> r.value != ""
  {
    if content == "" then None
    else
      FoundValueNonEmpty(content);
      FirstImgSrc(content)
  }

  /** The two copies agree: on every string, and on a missing content once the
      caller's `visit.content || ''` has turned it into "". */
  lemma CopiesAgree(content: Option<string>)
    ensures VisitCard.ExtractThumbnail(content) == ExtractThumbnail(OrEmpty(content))
    ensures content.Some? ==> VisitCard.ExtractThumbnail(content) == ExtractThumbnail(content.value)
  {
  }

  /** A found thumbnail is a non-empty, quote-free string, and empty content
      has none. */
  lemma ThumbnailShape(content: string)
    ensures ExtractThumbnail("") == None
    ensures ExtractThumbnail(content).Some? ==>
      var v := ExtractThumbnail(content).value;
      v != "" && forall k :: 0 <= k < |v| ==> !IsQuote(v[k])
  {
    if ExtractThumbnail(content).Some? {
      FoundValueShape(content);
    }
  }

  /** The rendered card. */
  datatype Card = Card(href: string, image: Option<string>, title: string, createdAt: string)

  /** The card links to `/visit/` followed by the slug as it is, and shows an
      image exactly when a thumbnail was found, with that thumbnail as source. */
  function Render(visit: Visit): (c: Card)
    ensures c.href == "/visit/" + visit.slug
    ensures c.href[7..] == visit.slug
    ensures c.image.Some? <==> ExtractThumbnail(OrEmpty(visit.content)).Some?
    ensures c.image.Some? ==> c.image == ExtractThumbnail(OrEmpty(visit.content))
    ensures c.title == visit.title
  {
    var thumbnail := ExtractThumbnail(OrEmpty(visit.content));
    FoundValueNonEmpty(OrEmpty(visit.content));
    Card("/visit/" + visit.slug, if Truthy(thumbnail) then thumbnail else None,
         visit.title, visit.createdAt)
  }
}
