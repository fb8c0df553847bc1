/** The visit post form (components/visit/VisitForm.tsx): one form that
    creates a post, or edits one when it is given a row with an id. */
module VisitForm {
  import opened Js
  import opened Records
  import opened Slug

  /** The `Partial<Visit>` the form may be given as `defaultValues`. */
  datatype VisitDefaults = VisitDefaults(
    id: Option<string>,
    title: Option<string>,
    slug: Option<string>,
    content: Option<string>)

  /** The defaults the visit card hands over when it opens the form on a row. */
  function DefaultsOf(v: Visit): VisitDefaults
  {
    VisitDefaults(Some(v.id), Some(v.title), Some(v.slug), v.content)
  }

  /** The form's values; slug and content may be missing. */
  datatype VisitInput = VisitInput(title: string, slug: Option<string>, content: Option<string>)

  /** `!!defaultValues?.id` */
  predicate IsEditMode(d: Option<VisitDefaults>)
  {
    d.Some? && Truthy(d.value.id)
  }

  /** `defaultValues?.<field> || ''` */
  function DefaultText(d: Option<VisitDefaults>, field: VisitDefaults -> Option<string>): (r: string)
    ensures r != "" <==> d.Some? && Truthy(field(d.value))
    ensures r != "" ==> r == field(d.value).value
  {
    if d.None? then "" else OrEmpty(field(d.value))
  }

  /** The form's initial values (lines 38-44): every field a string. */
  function InitialFields(d: Option<VisitDefaults>): (r: VisitInput)
    ensures r.slug.Some? && r.content.Some?
  {
    VisitInput(
      DefaultText(d, (x: VisitDefaults) => x.title),
      Some(DefaultText(d, (x: VisitDefaults) => x.slug)),
      Some(DefaultText(d, (x: VisitDefaults) => x.content)))
  }

  /** Opened on a row, the form is in edit mode exactly when the row has an
      id, and starts from the row's title, slug and content (a null content
      shown as ""). Opened on nothing it creates, from empty fields. */
  lemma InitialFieldsOfRow(v: Visit)
    ensures IsEditMode(Some(DefaultsOf(v))) <==> v.id != ""
    ensures InitialFields(Some(DefaultsOf(v))) == VisitInput(v.title, Some(v.slug), Some(OrEmpty(v.content)))
    ensures !IsEditMode(None) && InitialFields(None) == VisitInput("", Some(""), Some(""))
  {
  }

  /** The schema (lines 15-22): a title of at least one character, and a slug
      that is missing or matches `^[a-z0-9-]+$`; the content is free. */
  predicate Accepts(v: VisitInput)
  {
    v.title != "" && OptionalSlugOk(v.slug)
  }

  /** In edit mode the slug input is not shown, yet its value, taken from the
      row, is still checked: a row whose slug is not of the slug form cannot
      be edited, whatever title and content are typed. */
  lemma HiddenSlugStillChecked(v: Visit, title: string, content: Option<string>)
    requires !IsSlug(v.slug)
    ensures IsEditMode(Some(DefaultsOf(v))) <==> v.id != ""
    ensures !Accepts(InitialFields(Some(DefaultsOf(v))).(title := title, content := content))
  {
    InitialFieldsOfRow(v);
  }

  /** The two backend calls the form makes. */
  datatype BackendCall =
    | CreateVisit(draft: NewVisit)
    | UpdateVisit(id: string, patch: VisitPatch)

  /** What `updateVisit` receives (lines 52-55). */
  function EditPatch(values: VisitInput): (p: VisitPatch)
    ensures p.title == values.title && KeptOrNull(p.content, values.content)
  {
    VisitPatch(values.title, OrNull(values.content))
  }

  /** What `createVisit` receives (lines 60-64). */
  function CreatePayload(values: VisitInput, slug: string): (n: NewVisit)
    ensures n.title == values.title && n.slug == slug && KeptOrNull(n.content, values.content)
  {
    NewVisit(values.title, slug, OrNull(values.content))
  }

  /** The call `onSubmit` makes (lines 50-67): an update of the row being
      edited, a create when not editing and a slug is given, and nothing when
      the slug guard throws. */
  function Call(d: Option<VisitDefaults>, values: VisitInput): (c: Option<BackendCall>)
    ensures IsEditMode(d) ==> c == Some(UpdateVisit(d.value.id.value, EditPatch(values)))
    ensures !IsEditMode(d) && Truthy(values.slug) ==> c == Some(CreateVisit(CreatePayload(values, values.slug.value)))
    ensures !IsEditMode(d) && !Truthy(values.slug) ==> c.None?
  {
    if IsEditMode(d) then Some(UpdateVisit(d.value.id.value, EditPatch(values)))
    else if !Truthy(values.slug) then None
    else Some(CreateVisit(CreatePayload(values, values.slug.value)))
  }

  /** Editing never touches the slug: the patched row keeps its id, slug and
      publication state, and takes the typed title and content. */
  lemma EditKeepsAddress(row: Visit, values: VisitInput)
    requires IsEditMode(Some(DefaultsOf(row)))
    ensures var c := Call(Some(DefaultsOf(row)), values);
      c.Some? && c.value.UpdateVisit? && c.value.id == row.id &&
      ApplyPatch(row, c.value.patch).slug == row.slug &&
      ApplyPatch(row, c.value.patch).id == row.id &&
      ApplyPatch(row, c.value.patch).title == values.title
  {
  }

  /** Values that pass the schema when creating always reach `createVisit`
      with a well-formed slug: the slug guard only fires on a missing slug. */
  lemma AcceptedCreateCalls(d: Option<VisitDefaults>, values: VisitInput)
    requires !IsEditMode(d) && Accepts(values) && values.slug.Some?
    ensures var c := Call(d, values);
      c.Some? && c.value.CreateVisit? && c.value.draft.slug == values.slug.value &&
      IsSlug(c.value.draft.slug)
  {
  }

  /** The mounted form. `defaults` and `hasOnSubmitDone` are its props; the
      record of what it did is kept in `calls` (backend calls, oldest first),
      `pushed` (`router.push` targets) and `notified` (rows handed to
      `onSubmitDone`). */
  class Form {
    const defaults: Option<VisitDefaults>
    const hasOnSubmitDone: bool
    var fields: VisitInput
    var isSubmitting: bool
    var calls: seq<BackendCall>
    var pushed: seq<string>
    var notified: seq<Visit>

    /** Creates only happen outside edit mode and with a non-empty slug;
        updates only target the row being edited; every navigation goes to a
        post page; the edit callback is only used in edit mode. */
    ghost predicate Valid()
      reads this
    {
      (forall k :: 0 <= k < |calls| ==>
        (calls[k].CreateVisit? ==> !IsEditMode(defaults) && calls[k].draft.slug != "") &&
        (calls[k].UpdateVisit? ==> IsEditMode(defaults) && calls[k].id == defaults.value.id.value)) &&
      (forall k :: 0 <= k < |pushed| ==> StartsWith(pushed[k], "/visit/")) &&
      (IsEditMode(defaults) ==> pushed == []) &&
      (!IsEditMode(defaults) || !hasOnSubmitDone ==> notified == [])
    }

    constructor (defaults: Option<VisitDefaults>, hasOnSubmitDone: bool)
      ensures Valid()
      ensures this.defaults == defaults && this.hasOnSubmitDone == hasOnSubmitDone
      ensures fields == InitialFields(defaults) && !isSubmitting
      ensures calls == [] && pushed == [] && notified == []
    {
      this.defaults := defaults;
      this.hasOnSubmitDone := hasOnSubmitDone;
      fields := InitialFields(defaults);
      isSubmitting := false;
      calls := [];
      pushed := [];
      notified := [];
    }

    /** The user editing the inputs (react-hook-form's field `onChange`):
        the values change, nothing is submitted. */
    method SetFields(f: VisitInput)
      requires Valid()
      modifies this`fields
      ensures Valid() && fields == f
    {
      fields := f;
    }

    /** `onSubmit` (lines 46-74). `reply` is the row the backend call resolved
        with, or None when it rejected. An update hands the row to
        `onSubmitDone` when there is one; a create navigates to the new
        post's page; a failure or the slug guard does neither. The fields are
        kept and the submitting flag is always cleared. */
    method OnSubmit(values: VisitInput, reply: Option<Visit>)
      requires Valid()
      modifies this
      ensures Valid()
      ensures fields == old(fields) && !isSubmitting
      ensures var c := Call(defaults, values);
        calls == old(calls) + (if c.Some? then [c.value] else [])
      ensures pushed == old(pushed) +
        (if !IsEditMode(defaults) && Truthy(values.slug) && reply.Some?
         then ["/visit/" + reply.value.slug] else [])
      ensures notified == old(notified) +
        (if IsEditMode(defaults) && hasOnSubmitDone && reply.Some? then [reply.value] else [])
    {
      isSubmitting := true;
      if IsEditMode(defaults) {
        calls := calls + [UpdateVisit(defaults.value.id.value, EditPatch(values))];
        if reply.Some? && hasOnSubmitDone {
          notified := notified + [reply.value];
        }
      } else if !Truthy(values.slug) {
        // the slug guard throws before any call
      } else {
        calls := calls + [CreateVisit(CreatePayload(values, values.slug.value))];
        if reply.Some? {
          pushed := pushed + ["/visit/" + reply.value.slug];
        }
      }
      isSubmitting := false;
    }

    /** `form.handleSubmit(onSubmit)`: only values the schema accepts reach
        `onSubmit`. */
    method HandleSubmit(reply: Option<Visit>)
      requires Valid()
      modifies this
      ensures Valid()
      ensures !Accepts(old(fields)) ==>
        calls == old(calls) && pushed == old(pushed) && notified == old(notified) &&
        isSubmitting == old(isSubmitting)
      ensures Accepts(old(fields)) ==>
        var c := Call(defaults, old(fields));
        calls == old(calls) + (if c.Some? then [c.value] else []) && !isSubmitting
      ensures Accepts(old(fields)) ==>
        pushed == old(pushed) +
          (if !IsEditMode(defaults) && Truthy(old(fields).slug) && reply.Some?
           then ["/visit/" + reply.value.slug] else [])
      ensures Accepts(old(fields)) ==>
        notified == old(notified) +
          (if IsEditMode(defaults) && hasOnSubmitDone && reply.Some? then [reply.value] else [])
      ensures fields == old(fields)
    {
      if Accepts(fields) {
        OnSubmit(fields, reply);
      }
    }
  }
}
