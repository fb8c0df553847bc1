/** components/visit/VisitCard.tsx: the visit card with admin edit and delete
    buttons. The card keeps two pieces of state, whether the edit form is
    open and the visit it shows, which the edit, cancel and update-done
    handlers change. */
module VisitCard {
  import opened Js
  import opened Records
  import opened ImgSrcPattern

  /** `extractThumbnail(content?: string)`: null for a missing or empty
      content, otherwise the `src` of the first matching `<img` tag. */
  function ExtractThumbnail(content: Option<string>): (r: Option<string>)
    ensures !Truthy(content) ==> r.None?
    ensures r.Some? ==> r.value != ""
  {
    if !Truthy(content) then None
    else
      FoundValueNonEmpty(content.value);
      FirstImgSrc(content.value)
  }

  /** The thumbnail is what the pattern finds in the content, and missing or
      empty content has none. */
  lemma ThumbnailSpec(content: Option<string>)
    ensures ExtractThumbnail(content).Some? <==> content.Some? && HasMatch(content.value)
    ensures ExtractThumbnail(content).Some? ==>
      exists m :: IsFirstMatch(content.value, m) && ExtractThumbnail(content).value == Group(content.value, m)
    ensures content == None || content == Some("") ==> ExtractThumbnail(content) == None
  {
    if content.Some? {
      FirstImgSrcSpec(content.value);
      if content.value == "" {
        assert !HasMatch(content.value);
      }
    }
  }

  /** `pathname.startsWith('/hidden')`: the admin buttons are shown. */
  predicate IsAdminPath(pathname: string)
  {
    StartsWith(pathname, "/hidden")
  }

  /** Admin mode is exactly a path that begins with "/hidden", whatever follows. */
  lemma AdminPathSpec(pathname: string)
    ensures IsAdminPath(pathname) <==> exists rest :: pathname == "/hidden" + rest
  {
    if IsAdminPath(pathname) {
      assert pathname == "/hidden" + pathname[7..];
    }
  }

  /** What the card renders: the edit form over the current visit, or the
      linked preview. */
  datatype View =
    | EditForm(defaults: Visit)
    | Preview(href: string, adminButtons: bool, image: Option<string>, title: string, createdAt: string)

  class Card {
    const pathname: string
    var isEditing: bool
    var currentVisit: Visit

    constructor (visit: Visit, pathname: string)
      ensures this.pathname == pathname
      ensures !isEditing && currentVisit == visit
    {
      this.pathname := pathname;
      isEditing := false;
      currentVisit := visit;
    }

    /** `extractThumbnail(currentVisit.content || '')` */
    function Thumbnail(): (r: Option<string>)
      reads this
      ensures !Truthy(currentVisit.content) ==> r.None?
      ensures r.Some? ==> r.value != ""
    {
      ExtractThumbnail(Some(OrEmpty(currentVisit.content)))
    }

    /** The rendered card: the form while editing, else the link to
        `/visit/<slug>` with the admin buttons for admin paths and the
        thumbnail image whenever one was found. */
    function Render(): (v: View)
      reads this
      ensures v.EditForm? <==> isEditing
      ensures v.EditForm? ==> v.defaults == currentVisit
      ensures v.Preview? ==>
        && v.href == "/visit/" + currentVisit.slug
        && v.adminButtons == IsAdminPath(pathname)
        && v.image == Thumbnail()
        && v.title == currentVisit.title
    {
      if isEditing then EditForm(currentVisit)
      else
        var thumbnail := Thumbnail();
        FoundValueNonEmpty(OrEmpty(currentVisit.content));
        Preview("/visit/" + currentVisit.slug, IsAdminPath(pathname),
                if Truthy(thumbnail) then thumbnail else None,
                currentVisit.title, currentVisit.createdAt)
    }

    /** The edit button, which exists only in the admin preview. */
    method StartEditing()
      requires !isEditing && IsAdminPath(pathname)
      modifies this`isEditing
      ensures isEditing && currentVisit == old(currentVisit)
    {
      isEditing := true;
    }

    /** The edit form's cancel callback: leave edit mode, keep the visit. */
    method CancelEditing()
      modifies this`isEditing
      ensures !isEditing && currentVisit == old(currentVisit)
    {
      isEditing := false;
    }

    /** `handleUpdateDone`: show the updated visit and leave edit mode. */
    method UpdateDone(updated: Visit)
      modifies this
      ensures !isEditing && currentVisit == updated
    {
      currentVisit := updated;
      isEditing := false;
    }

    /** `handleDelete`: after the confirmation, the id of the shown visit is
        deleted; a refusal deletes nothing. The page reload is not modelled. */
    method Delete(confirmed: bool) returns (deleted: Option<string>)
      ensures deleted == (if confirmed then Some(currentVisit.id) else None)
    {
      if !confirmed {
        return None;
      }
      deleted := Some(currentVisit.id);
    }
  }

  /** After an edit is saved, the card shows the updated visit's title, link
      and thumbnail, and the shown slug is the one the update returned. */
  method EditThenSave(card: Card, updated: Visit)
    requires IsAdminPath(card.pathname) && !card.isEditing
    modifies card
    ensures card.Render() == Preview("/visit/" + updated.slug, true,
                                     ExtractThumbnail(Some(OrEmpty(updated.content))),
                                     updated.title, updated.createdAt)
  {
    card.StartEditing();
    assert card.Render().EditForm?;
    card.UpdateDone(updated);
  }
}
