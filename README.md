# Taebaek guide front end: forms, visit cards and the post drafter

A model, in Dafny, of the client-side logic of a Next.js guide to Taebaek
whose data lives in Supabase. It covers:

- the thumbnail extraction of the two visit cards: the regular expression
  `/<img[^>]+src=["']([^"']+)["']/` as a scanner that follows JavaScript's
  backtracking order, proved to return the match `String.prototype.match`
  reports;
- the admin visit card's state (edit mode, the shown visit) and what it
  renders, and the older stateless card;
- the place, neighbourhood (행정동) and visit forms: their zod schemas, the
  rows they turn accepted values into (`|| null`, the tags split), and their
  submit cycles (backend call, reset or navigation, the submitting flag);
- the admin page that drafts a visit post as HTML from a title, text lines,
  image URL lines and one of three layouts.

Modules: `Js` (the JavaScript string and array primitives used), `Records`
and `Schema` (the rows and the shared zod piece), `ImgSrcPattern`,
`VisitCard`, `VisitCardLite`, `Slug`, `PlaceForm`, `DongForm`, `VisitForm`,
`VisitFormCreate`, `VisitPrePost`.

Backend calls (`createPlace`, `createDong`, `createVisit`, `updateVisit`)
are outcomes passed in: whether the call resolved, or the row
it resolved with. Each form class records the rows it handed to the backend
in a `sent`/`calls` sequence and its navigations in `pushed`. What zod
accepts as a URL is a parameter `isUrl`; the browser's date string is a
parameter `today`.

## Model

| member | source | states |
|---|---|---|
| Js.OrNull | components/forms/PlaceForm.tsx:58-60 | `s || null` is null exactly for a missing or empty text, never "", and otherwise the text itself |
| Js.OrEmpty | components/visit/VisitCard.tsx:34 | `s || ''` gives the text when present and "" when missing |
| Js.Split | app/hidden/visit-prepost/page.tsx:16 | `split` on a one-character separator always yields at least one piece (its other properties are the Split lemmas below) |
| Js.Join | app/hidden/visit-prepost/page.tsx:24 | `join`: the result begins with the first piece (every piece occurs in it, by JoinContainsPiece) |
| Js.JoinSplit | app/hidden/visit-prepost/page.tsx:16 | joining the pieces of `split(sep)` with `sep` gives back the string |
| Js.SplitJoin | app/hidden/visit-prepost/page.tsx:16 | splitting a join of separator-free pieces gives back the pieces |
| Js.SplitCount | components/forms/PlaceForm.tsx:51 | `split` yields one piece more than there are separators |
| Js.SplitPiecesLackSeparator | components/forms/PlaceForm.tsx:51 | no piece of a split contains the separator |
| Js.SplitPieceChars | components/forms/PlaceForm.tsx:51 | every character of a piece comes from the split string |
| Js.JoinContainsPiece | app/hidden/visit-prepost/page.tsx:24-28 | every piece occurs in the joined string |
| Js.Filter | app/hidden/visit-prepost/page.tsx:16-17 | `filter` keeps exactly the kept elements, no more than the input has |
| Js.FilterAppend | app/hidden/visit-prepost/page.tsx:16-17 | filtering keeps order: filtering a concatenation concatenates the filtered parts |
| Js.FilterKeepsAll | components/forms/PlaceForm.tsx:51 | filtering a list all of whose elements pass changes nothing |
| Js.FilterKeepsNone | components/forms/PlaceForm.tsx:51 | filtering a list none of whose elements pass gives [] |
| Js.Map | app/hidden/visit-prepost/page.tsx:24-27 | `map` keeps the length and applies the function at every index |
| Js.Trim | components/forms/PlaceForm.tsx:51 | `trim` (leading, then trailing ECMAScript white space and line terminators removed) never lengthens its input |
| Js.TrimSpec | components/forms/PlaceForm.tsx:51 | `trim` leaves no white space at either end and is empty exactly for all-white-space input |
| Js.TrimChars | components/forms/PlaceForm.tsx:51 | every character of the trimmed string occurs in the input |
| Js.TrimRemovesOnlyEndSpace | components/forms/PlaceForm.tsx:51 | `trim` removes white space and only from the two ends: the input is blank text, the result, blank text |
| Js.TrimTrimmed | components/forms/PlaceForm.tsx:51 | trimming a trimmed string changes nothing |
| Records.ApplyPatch | lib/supabase.ts:225-232 | an update replaces title and content and keeps id, slug and published |
| Schema.UrlOrEmpty | components/forms/PlaceForm.tsx:23 | `z.string().url().optional().or(z.literal(''))` (also DongForm.tsx:21): a missing value, "" or a URL |
| ImgSrcPattern.FirstGt | components/visit/VisitCard.tsx:88 | the first `>` at or after j, or the end: how far greedy `[^>]+` can reach |
| ImgSrcPattern.FirstQuote | components/visit/VisitCard.tsx:88 | the first quote at or after j: where greedy `[^"']+` stops |
| ImgSrcPattern.ValueAt | components/visit/VisitCard.tsx:88 | `src=["']([^"']+)["']` matches at i exactly when a closing quote is returned |
| ImgSrcPattern.Backtrack | components/visit/VisitCard.tsx:88 | giving back characters from the right, the largest `src=` position whose value completes, or none in the range |
| ImgSrcPattern.MatchAt | components/visit/VisitCard.tsx:88 | a match at a given `<img` uses the last completing `src=` before the first `>`, or there is none there |
| ImgSrcPattern.MatchFrom | components/visit/VisitCard.tsx:88 | the leftmost start at or after p where the expression matches, or none |
| ImgSrcPattern.Exec | components/visit/VisitCard.tsx:88 | the scanner finds the first match exactly when one exists |
| ImgSrcPattern.Group | components/visit/VisitCard.tsx:89 | `match[1]` of a match is non-empty and quote-free, and sits between the two quotes after its `src=` |
| ImgSrcPattern.FirstImgSrc | components/visit/VisitCard.tsx:88-89 | `match ? match[1] : null` is null exactly when the expression matches nowhere in the text |
| ImgSrcPattern.FirstMatchUnique | components/visit/VisitCard.tsx:88 | the first match is unique |
| ImgSrcPattern.FirstImgSrcSpec | components/visit/VisitCard.tsx:88-89 | `match ? match[1] : null` is the group of the first match, and null exactly when nothing matches |
| ImgSrcPattern.FoundValueShape | components/visit/VisitCard.tsx:88-89 | a found source is non-empty, quote-free, quoted after a `src=` inside an `<img` tag with no `>` before it |
| ImgSrcPattern.FoundValueNonEmpty | components/visit/VisitCard.tsx:88-89 | a found source is never "" |
| ImgSrcPattern.NoImgNoMatch | components/visit/VisitCard.tsx:88 | text without `<img` has no thumbnail |
| ImgSrcPattern.LeftmostWins | components/visit/VisitCard.tsx:88 | any match bounds the reported one: it starts no later, and at the same start its `src=` is no earlier |
| ImgSrcPattern.SingleImgTag | components/visit/VisitCard.tsx:88-89 | `<img src="v">` with either quote style yields v |
| ImgSrcPattern.LastSrcInTagWins | components/visit/VisitCard.tsx:88 | in `<img src="a" data-src="b">` the backtracking picks "b" |
| ImgSrcPattern.SrcAfterTagCloseIgnored | components/visit/VisitCard.tsx:88 | a `src=` after the tag's `>` is not matched |
| VisitCard.ExtractThumbnail | components/visit/VisitCard.tsx:86-90 | no thumbnail for missing or empty content; a found one is never "" |
| VisitCard.ThumbnailSpec | components/visit/VisitCard.tsx:86-90 | the thumbnail is the first match's group, none for missing or empty content |
| VisitCard.IsAdminPath | components/visit/VisitCard.tsx:16 | `pathname.startsWith('/hidden')` |
| VisitCard.AdminPathSpec | components/visit/VisitCard.tsx:16 | admin mode is exactly a path beginning with "/hidden" |
| VisitCard.Card.constructor | components/visit/VisitCard.tsx:15-19 | a new card is not editing and shows the given visit |
| VisitCard.Card.Thumbnail | components/visit/VisitCard.tsx:34 | the shown visit's thumbnail: none when its content is missing or empty, and never "" |
| VisitCard.Card.Render | components/visit/VisitCard.tsx:34-81 | the form while editing; otherwise a link to `/visit/<slug>`, admin buttons exactly on admin paths, the thumbnail when found, the title |
| VisitCard.Card.StartEditing | components/visit/VisitCard.tsx:50-58 | the admin edit button opens the form on the shown visit |
| VisitCard.Card.CancelEditing | components/visit/VisitCard.tsx:41 | cancel leaves edit mode and keeps the visit |
| VisitCard.Card.UpdateDone | components/visit/VisitCard.tsx:29-32 | a saved edit shows the updated visit and leaves edit mode |
| VisitCard.Card.Delete | components/visit/VisitCard.tsx:21-27 | the shown visit's id is deleted only after confirmation |
| VisitCard.EditThenSave | components/visit/VisitCard.tsx:29-58 | after edit and save the card previews the updated visit |
| VisitCardLite.ExtractThumbnail | components/visit/visitcard1.tsx:11-15 | no thumbnail for ""; a found one is never "" |
| VisitCardLite.CopiesAgree | components/visit/visitcard1.tsx:11-18 | the older card's `extractThumbnail` agrees with the admin card's on every content |
| VisitCardLite.ThumbnailShape | components/visit/visitcard1.tsx:11-15 | "" has no thumbnail; a found one is non-empty and quote-free |
| VisitCardLite.Render | components/visit/visitcard1.tsx:17-29 | link to `/visit/` plus the slug unchanged, an image exactly when a thumbnail is found, the title |
| Slug.RunFrom | components/visit/VisitForm.tsx:19 | the anchored run `[a-z0-9-]*$` from i succeeds exactly when every remaining character is in the class |
| Slug.IsSlug | components/visit/VisitForm.tsx:17-19 | `min(1)` plus `^[a-z0-9-]+$` accepts exactly non-empty strings of slug characters |
| Slug.OptionalSlugOk | components/visit/VisitForm.tsx:17-20 | the edit form's `.optional()` slug: missing, or of the slug form |
| Slug.SlugIsPathSegment | components/visit/VisitForm.tsx:17-19 | a slug has no `/`, `?`, `#`, `%`, white space or capital, and trimming keeps it |
| Slug.VisitPathRoundTrip | components/visit/VisitForm.tsx:66 | `/visit/<slug>` gives the slug back after the prefix, with no further `/` |
| PlaceForm.ParsePlaceType | components/forms/PlaceForm.tsx:18-20 | `z.enum` accepts exactly the four category names and returns their category |
| PlaceForm.PlaceTypeRoundTrip | components/forms/PlaceForm.tsx:18-20 | every category's name parses back to it |
| PlaceForm.Validate | components/forms/PlaceForm.tsx:16-25 | accepted exactly with a name, a known category and an image URL missing, empty or a URL; accepted values read back as the input |
| PlaceForm.ValidateToInput | components/forms/PlaceForm.tsx:16-25 | typed values shown as input are accepted back unchanged |
| PlaceForm.DefaultsNeedOnlyAName | components/forms/PlaceForm.tsx:36-44 | the defaults are refused only for their empty name |
| PlaceForm.ParseTags | components/forms/PlaceForm.tsx:50-52 | the tags are null exactly for a missing or empty input |
| PlaceForm.TagsWellFormed | components/forms/PlaceForm.tsx:50-52 | every parsed tag is non-empty, trimmed and comma-free; at most one per comma plus one |
| PlaceForm.TagsOfPieces | components/forms/PlaceForm.tsx:50-52 | tags typed as comma-separated pieces come back as the trimmed pieces in input order, blank ones dropped |
| PlaceForm.TagsRoundTrip | components/forms/PlaceForm.tsx:50-52 | proper tags joined with commas parse back to themselves |
| PlaceForm.BlankTagsGiveEmptyList | components/forms/PlaceForm.tsx:50-52 | commas and white space alone give an empty list, not null |
| PlaceForm.ToNewPlace | components/forms/PlaceForm.tsx:55-62 | the row keeps name and category, nulls empty optional texts, carries the parsed tags, and is normalised |
| PlaceForm.AcceptedRow | components/forms/PlaceForm.tsx:16-25 | an accepted form's row has a name, the chosen category and an image absent or a URL |
| PlaceForm.UntouchedOptionalsBecomeNull | components/forms/PlaceForm.tsx:55-62 | untouched optional fields are stored as null |
| PlaceForm.Form.constructor | components/forms/PlaceForm.tsx:35-44 | the form starts from its defaults, not submitting, nothing sent |
| PlaceForm.Form.SetFields | components/forms/PlaceForm.tsx:92-197 | typing changes the values and nothing else |
| PlaceForm.Form.OnSubmit | components/forms/PlaceForm.tsx:45-80 | the row is sent, the fields reset only on success, the submitting flag cleared, all sent rows normalised |
| PlaceForm.Form.HandleSubmit | components/forms/PlaceForm.tsx:91 | refused values change nothing; accepted ones are submitted |
| PlaceForm.RegisterPlace | components/forms/PlaceForm.tsx:45-91 | a fresh form filled with a valid place and submitted sends exactly that place's row, and is back at its defaults when the backend took it |
| DongForm.IdHintNotEnforced | components/forms/DongForm.tsx:16 | any non-empty id with any non-empty name is accepted, "Hwang Ji" (not a slug) included: the lowercase hint under the input is not checked |
| DongForm.Accepts | components/forms/DongForm.tsx:15-22 | the schema: id and name of at least one character, image URL missing, empty or a URL |
| DongForm.ToNewDong | components/forms/DongForm.tsx:46-53 | the row keeps id and name and nulls the four empty optional texts |
| DongForm.AcceptedRow | components/forms/DongForm.tsx:15-22 | an accepted form's row has an id, a name and an image absent or a URL |
| DongForm.Form.constructor | components/forms/DongForm.tsx:30-40 | the form starts from its defaults, not submitting, nothing sent |
| DongForm.Form.SetFields | components/forms/DongForm.tsx:76-176 | typing changes the values and nothing else |
| DongForm.Form.OnSubmit | components/forms/DongForm.tsx:42-71 | the row is sent, the fields reset only on success, the submitting flag cleared |
| DongForm.Form.HandleSubmit | components/forms/DongForm.tsx:75 | refused values change nothing; accepted ones are submitted |
| VisitForm.InitialFields | components/visit/VisitForm.tsx:38-44 | every initial field is a string |
| VisitForm.IsEditMode | components/visit/VisitForm.tsx:33 | `!!defaultValues?.id`: defaults given, with a non-empty id |
| VisitForm.InitialFieldsOfRow | components/visit/VisitForm.tsx:33-44 | opened on a row, edit mode iff the row has an id, fields from the row; opened on nothing, create mode with empty fields |
| VisitForm.Accepts | components/visit/VisitForm.tsx:15-22 | the schema: a title of at least one character, a slug missing or of the slug form, content free |
| VisitForm.HiddenSlugStillChecked | components/visit/VisitForm.tsx:15-22 | in edit mode a row whose slug is not of the slug form cannot be saved, since the hidden slug is still validated |
| VisitForm.EditPatch | components/visit/VisitForm.tsx:52-55 | the update carries the typed title and the content with "" turned into null |
| VisitForm.CreatePayload | components/visit/VisitForm.tsx:60-64 | the create carries title, slug and the content with "" turned into null |
| VisitForm.Call | components/visit/VisitForm.tsx:50-67 | edit mode updates the edited id; otherwise a create with the slug, or nothing when the slug is missing or empty |
| VisitForm.EditKeepsAddress | components/visit/VisitForm.tsx:50-56 | an edit targets the shown row and leaves its id and slug, so its address, unchanged |
| VisitForm.AcceptedCreateCalls | components/visit/VisitForm.tsx:58-64 | values the schema accepts in create mode always reach `createVisit` with a valid slug |
| VisitForm.Form.constructor | components/visit/VisitForm.tsx:32-44 | the form starts from the initial fields with nothing done |
| VisitForm.Form.SetFields | components/visit/VisitForm.tsx:79-127 | typing changes the values and nothing else |
| VisitForm.Form.OnSubmit | components/visit/VisitForm.tsx:46-74 | the call made, the callback only after a resolved update, navigation to the new post only after a resolved create, the flag cleared |
| VisitForm.Form.HandleSubmit | components/visit/VisitForm.tsx:78 | refused values change nothing; accepted ones are submitted |
| VisitFormCreate.Payload | components/visit/visitForm1.tsx:42-46 | the create carries title, slug and the content with "" turned into null |
| VisitFormCreate.Accepts | components/visit/visitForm1.tsx:15-21 | the schema: a title, and a slug of the slug form |
| VisitFormCreate.AgreesWithCombinedForm | components/visit/visitForm1.tsx:15-21 | on accepted values the create-only form sends what the combined form sends in create mode |
| VisitFormCreate.Form.constructor | components/visit/visitForm1.tsx:29-36 | the form starts empty with nothing sent |
| VisitFormCreate.Form.SetFields | components/visit/visitForm1.tsx:61-109 | typing changes the values and nothing else |
| VisitFormCreate.Form.OnSubmit | components/visit/visitForm1.tsx:38-56 | the row is sent, navigation to the new post only when the create resolved, the flag cleared |
| VisitFormCreate.Form.HandleSubmit | components/visit/visitForm1.tsx:60 | refused values change nothing; accepted ones are submitted |
| VisitPrePost.Paragraphs | app/hidden/visit-prepost/page.tsx:16 | paragraphs are non-empty, newline-free, at most one per line |
| VisitPrePost.ImageList | app/hidden/visit-prepost/page.tsx:17 | image URLs start with "http", are newline-free, at most one per line |
| VisitPrePost.IsHttp | app/hidden/visit-prepost/page.tsx:17 | `url.startsWith('http')` |
| VisitPrePost.ParagraphsOfLines | app/hidden/visit-prepost/page.tsx:16 | text typed as lines gives back its non-empty lines in order |
| VisitPrePost.ImageListOfLines | app/hidden/visit-prepost/page.tsx:17 | URL text typed as lines gives back the lines starting with "http" in order |
| VisitPrePost.ImageBlock | app/hidden/visit-prepost/page.tsx:19-22 | `buildImageBlock`: the URL between the block's fixed opening and closing text |
| VisitPrePost.ImageBlocks | app/hidden/visit-prepost/page.tsx:24 | no images give ""; otherwise the text begins with the first URL's block |
| VisitPrePost.ParagraphTag | app/hidden/visit-prepost/page.tsx:27 | `<p>${text}</p>`: the text verbatim after `<p>`, seven characters of markup in all |
| VisitPrePost.ParagraphHtml | app/hidden/visit-prepost/page.tsx:26-28 | each paragraph wrapped in `<p>`, joined by a blank line |
| VisitPrePost.MemoBlock | app/hidden/visit-prepost/page.tsx:30-38 | the memo box listing the title and the date |
| VisitPrePost.SelectLayout | app/hidden/visit-prepost/page.tsx:42-84 | template "1", "2", and every other value to the third layout |
| VisitPrePost.Render | app/hidden/visit-prepost/page.tsx:44-55 | the shape shared by the three layouts (also lines 58-69 and 72-83): the text begins with the header and the title, and is exactly as long as its parts |
| VisitPrePost.GenerateHtml | app/hidden/visit-prepost/page.tsx:13-87 | no draft exactly when the title or the content is empty |
| VisitPrePost.RenderContainsParts | app/hidden/visit-prepost/page.tsx:44-83 | a filled layout starts with its header around the title and contains the images, paragraphs and memo |
| VisitPrePost.HtmlShowsTitle | app/hidden/visit-prepost/page.tsx:30-47 | the draft opens with the chosen layout's header holding the title; the memo lists title and date |
| VisitPrePost.HtmlShowsParagraph | app/hidden/visit-prepost/page.tsx:24-28 | every paragraph appears as a `<p>` element |
| VisitPrePost.HtmlShowsImage | app/hidden/visit-prepost/page.tsx:17-24 | every image URL appears as the source of an image block |
| VisitPrePost.Page.constructor | app/hidden/visit-prepost/page.tsx:7-11 | the page starts empty with template "1" |
| VisitPrePost.Page.Generate | app/hidden/visit-prepost/page.tsx:13-86 | the shown code becomes the draft, and stays when the title or content is empty |

## Left out

- The Supabase client (lib/supabase.ts, lib/supabase1.ts): every backend call is an outcome passed in; row timestamps and ids are the backend's.
- Toasts, `console.error`, `window.location.reload` after a delete, the `confirm` dialog (its answer is a parameter) and the toast action that navigates to the list page.
- zod's URL check: an uninterpreted `isUrl`.
- `new Date().toLocaleDateString()`: the date string is the parameter `today`.
- JavaScript strings are UTF-16 code units; the model uses Unicode characters, which differ only outside the Basic Multilingual Plane.
- `ImgSrcPattern.LastSrcInTagWins` records the expression's own behaviour: in a tag with both `src` and a later `data-src`, the later one is taken.
- PlaceForm.Form.OnSubmit, DongForm.Form.OnSubmit, VisitForm.Form.OnSubmit, VisitFormCreate.Form.OnSubmit: each submit handler, `await` included, is one atomic step, so `isSubmitting` is never seen true from outside; the submit and cancel buttons disabled while a call is pending (PlaceForm.tsx:206,210; DongForm.tsx:185,189; VisitForm.tsx:137,142; visitForm1.tsx:118,122), and so the blocking of a second submit, are not modelled.
- VisitForm.Form.SetFields: in edit mode the slug input is not rendered, so a user cannot change the slug there; the method does not forbid it.
- VisitCard.Card.Delete: returns the id handed to `deleteVisit`; a `deleteVisit` that rejects (VisitCard.tsx:25), which skips the reload and leaves the rejection unhandled, is not modelled.
- `VisitCard.Card.StartEditing`: the button exists only in the admin preview, which the requires states; the click-propagation handling is not modelled.
- React rendering, layout classes, `formatDate` and the pages that only fetch and display rows are presentation and are not part of this model.
