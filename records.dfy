/** The rows the forms send to and the cards receive from the backend, as
    typed in lib/supabase.ts. Nullable columns are `Option`s. */
module Records {
  import opened Js

  /** A visit post ("태백 현황"). */
  datatype Visit = Visit(
    id: string,
    title: string,
    slug: string,
    content: Option<string>,
    createdAt: string,
    updatedAt: string,
    published: bool)

  /** The place categories of the `places` table. */
  datatype PlaceType = Cafe | Restaurant | Attraction | Recommendation

  /** The string the backend and the form's select use for each category. */
  function PlaceTypeName(t: PlaceType): string
  {
    match t
    case Cafe => "cafe"
    case Restaurant => "restaurant"
    case Attraction => "attraction"
    case Recommendation => "recommendation"
  }

  /** `Omit<Place, 'id'>`: what `createPlace` receives. */
  datatype NewPlace = NewPlace(
    placeName: string,
    kind: PlaceType,
    address: Option<string>,
    description: Option<string>,
    imageUrl: Option<string>,
    tags: Option<seq<string>>)

  /** `Omit<DongHeritage, 'id'>`: what `createDong` receives. */
  datatype NewDong = NewDong(
    dongId: string,
    dongName: string,
    origin: Option<string>,
    history: Option<string>,
    summary: Option<string>,
    imageUrl: Option<string>)

  /** The fields `createVisit` receives. */
  datatype NewVisit = NewVisit(title: string, slug: string, content: Option<string>)

  /** The `Partial<Visit>` the edit form hands to `updateVisit`: only a title
      and a content; there is no slug column in it. */
  datatype VisitPatch = VisitPatch(title: string, content: Option<string>)

  /** The row `updateVisit` writes back: the patched columns replaced, every
      other column as it was (timestamps are the backend's and are not modelled). */
  function ApplyPatch(row: Visit, patch: VisitPatch): (r: Visit)
    ensures r.title == patch.title && r.content == patch.content
    ensures r.id == row.id && r.slug == row.slug && r.published == row.published
  {
    row.(title := patch.title, content := patch.content)
  }
}

/** The zod pieces the form schemas share. */
module Schema {
  import opened Js

  /** `z.string().url().optional().or(z.literal(''))`: missing, empty, or a URL.
      What zod accepts as a URL is its own business and is passed in as `isUrl`. */
  predicate UrlOrEmpty(u: Option<string>, isUrl: string -> bool)
  {
    u.None? || u.value == "" || isUrl(u.value)
  }
}
