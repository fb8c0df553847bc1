/** The neighbourhood (행정동) registration form (components/forms/DongForm.tsx):
    its schema, the row handed to `createDong`, and the submit cycle. */
module DongForm {
  import opened Js
  import opened Records
  import opened Schema
  import Slug

  /** The form's values; the optional text inputs may be missing. */
  datatype DongInput = DongInput(
    dongId: string,
    dongName: string,
    origin: Option<string>,
    history: Option<string>,
    summary: Option<string>,
    imageUrl: Option<string>)

  /** The form's `defaultValues`, which `form.reset()` also restores. */
  const DefaultInput := DongInput("", "", Some(""), Some(""), Some(""), Some(""))

  /** The schema (lines 15-22): an id and a name, each at least one character,
      and an image URL that is missing, empty or a URL. */
  predicate Accepts(v: DongInput, isUrl: string -> bool)
  {
    v.dongId != "" && v.dongName != "" && UrlOrEmpty(v.imageUrl, isUrl)
  }

  /** The id's format hint (lowercase letters and hyphens) is advice shown
      under the input, not part of the schema: any non-empty id is accepted
      with any non-empty name, an id such as "Hwang Ji", with a capital letter
      and a space, included. */
  lemma IdHintNotEnforced(id: string, name: string, isUrl: string -> bool)
    requires id != "" && name != ""
    ensures Accepts(DongInput(id, name, None, None, None, None), isUrl)
    ensures Accepts(DongInput(id, name, Some(""), Some(""), Some(""), Some("")), isUrl)
    ensures !Slug.IsSlug("Hwang Ji") && Accepts(DongInput("Hwang Ji", name, None, None, None, None), isUrl)
  {
    assert !Slug.IsSlugChar("Hwang Ji"[0]);
  }

  /** A row the form can hand to `createDong`: no optional column holds "". */
  predicate Normalized(r: NewDong)
  {
    r.origin != Some("") && r.history != Some("") && r.summary != Some("") && r.imageUrl != Some("")
  }

  /** The `formData` of `onSubmit` (lines 46-53): the values spread, with the
      four optional texts through `|| null`. */
  function ToNewDong(v: DongInput): (r: NewDong)
    ensures Normalized(r)
    ensures r.dongId == v.dongId && r.dongName == v.dongName
    ensures KeptOrNull(r.origin, v.origin) && KeptOrNull(r.history, v.history)
    ensures KeptOrNull(r.summary, v.summary) && KeptOrNull(r.imageUrl, v.imageUrl)
  {
    NewDong(v.dongId, v.dongName, OrNull(v.origin), OrNull(v.history), OrNull(v.summary), OrNull(v.imageUrl))
  }

  /** An accepted form gives a row with an id, a name, and an image that is
      either absent or a URL. */
  lemma AcceptedRow(v: DongInput, isUrl: string -> bool)
    requires Accepts(v, isUrl)
    ensures var r := ToNewDong(v);
      r.dongId != "" && r.dongName != "" && (r.imageUrl.None? || isUrl(r.imageUrl.value))
  {
  }

  /** The mounted form: its current values, the submitting flag, and the rows
      it has handed to `createDong`, oldest first. */
  class Form {
    var fields: DongInput
    var isSubmitting: bool
    var sent: seq<NewDong>

    /** Every row the form has sent is normalised. */
    ghost predicate Valid()
      reads this
    {
      forall k :: 0 <= k < |sent| ==> Normalized(sent[k])
    }

    constructor ()
      ensures Valid()
      ensures fields == DefaultInput && !isSubmitting && sent == []
    {
      fields := DefaultInput;
      isSubmitting := false;
      sent := [];
    }

    /** The user editing the inputs (react-hook-form's field `onChange`):
        the values change, nothing is submitted. */
    method SetFields(f: DongInput)
      requires Valid()
      modifies this`fields
      ensures Valid() && fields == f
    {
      fields := f;
    }

    /** `onSubmit` (lines 42-71). `created` is whether `createDong` resolved:
        the row is sent either way, the fields go back to their defaults only
        when it resolved, and the submitting flag is always cleared. */
    method OnSubmit(values: DongInput, created: bool)
      requires Valid()
      modifies this
      ensures Valid()
      ensures sent == old(sent) + [ToNewDong(values)]
      ensures fields == (if created then DefaultInput else old(fields))
      ensures !isSubmitting
    {
      isSubmitting := true;
      var formData := ToNewDong(values);
      sent := sent + [formData];
      if created {
        fields := DefaultInput;
      }
      isSubmitting := false;
    }

    /** `form.handleSubmit(onSubmit)`: only values the schema accepts reach
        `onSubmit`. */
    method HandleSubmit(isUrl: string -> bool, created: bool)
      requires Valid()
      modifies this
      ensures Valid()
      ensures !Accepts(old(fields), isUrl) ==>
        sent == old(sent) && fields == old(fields) && isSubmitting == old(isSubmitting)
      ensures Accepts(old(fields), isUrl) ==>
        sent == old(sent) + [ToNewDong(old(fields))] &&
        fields == (if created then DefaultInput else old(fields)) && !isSubmitting
    {
      if Accepts(fields, isUrl) {
        OnSubmit(fields, created);
      }
    }
  }
}
