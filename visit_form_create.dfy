/** The create-only visit form (components/visit/visitForm1.tsx): the same
    fields as the combined form, but the slug is required and every accepted
    submission goes to `createVisit`. */
module VisitFormCreate {
  import opened Js
  import opened Records
  import opened Slug
  import VisitForm

  /** The form's values; the content may be missing. */
  datatype CreateInput = CreateInput(title: string, slug: string, content: Option<string>)

  /** The form's `defaultValues`. */
  const DefaultInput := CreateInput("", "", Some(""))

  /** The schema (lines 15-21): a title and a slug of the slug form. */
  predicate Accepts(v: CreateInput)
  {
    v.title != "" && IsSlug(v.slug)
  }

  /** What `createVisit` receives (lines 42-46). */
  function Payload(v: CreateInput): (n: NewVisit)
    ensures n.title == v.title && n.slug == v.slug && KeptOrNull(n.content, v.content)
  {
    NewVisit(v.title, v.slug, OrNull(v.content))
  }

  /** On the values both forms accept, this form sends what the combined form
      sends in create mode. */
  lemma AgreesWithCombinedForm(v: CreateInput)
    requires Accepts(v)
    ensures VisitForm.Accepts(VisitForm.VisitInput(v.title, Some(v.slug), v.content))
    ensures VisitForm.Call(None, VisitForm.VisitInput(v.title, Some(v.slug), v.content)) ==
      Some(VisitForm.CreateVisit(Payload(v)))
  {
  }

  /** The mounted form, with the rows it handed to `createVisit` and the
      pages it navigated to. */
  class Form {
    var fields: CreateInput
    var isSubmitting: bool
    var sent: seq<NewVisit>
    var pushed: seq<string>

    /** No row is sent with an empty content, and every navigation goes to a
        post page. */
    ghost predicate Valid()
      reads this
    {
      (forall k :: 0 <= k < |sent| ==> sent[k].content != Some("")) &&
      (forall k :: 0 <= k < |pushed| ==> StartsWith(pushed[k], "/visit/"))
    }

    constructor ()
      ensures Valid()
      ensures fields == DefaultInput && !isSubmitting && sent == [] && pushed == []
    {
      fields := DefaultInput;
      isSubmitting := false;
      sent := [];
      pushed := [];
    }

    /** The user editing the inputs (react-hook-form's field `onChange`):
        the values change, nothing is submitted. */
    method SetFields(f: CreateInput)
      requires Valid()
      modifies this`fields
      ensures Valid() && fields == f
    {
      fields := f;
    }

    /** `onSubmit` (lines 38-56): the row is sent, and when `createVisit`
        resolves with the new row the page moves to that row's address. The
        submitting flag is always cleared and the fields are kept. */
    method OnSubmit(values: CreateInput, reply: Option<Visit>)
      requires Valid()
      modifies this
      ensures Valid()
      ensures sent == old(sent) + [Payload(values)]
      ensures pushed == old(pushed) + (if reply.Some? then ["/visit/" + reply.value.slug] else [])
      ensures fields == old(fields) && !isSubmitting
    {
      isSubmitting := true;
      sent := sent + [Payload(values)];
      if reply.Some? {
        pushed := pushed + ["/visit/" + reply.value.slug];
      }
      isSubmitting := false;
    }

    /** `form.handleSubmit(onSubmit)`: only values the schema accepts reach
        `onSubmit`. */
    method HandleSubmit(reply: Option<Visit>)
      requires Valid()
      modifies this
      ensures Valid()
      ensures !Accepts(old(fields)) ==> sent == old(sent) && pushed == old(pushed) && isSubmitting == old(isSubmitting)
      ensures Accepts(old(fields)) ==> sent == old(sent) + [Payload(old(fields))] && !isSubmitting
      ensures Accepts(old(fields)) ==>
        pushed == old(pushed) + (if reply.Some? then ["/visit/" + reply.value.slug] else [])
      ensures fields == old(fields)
    {
      if Accepts(fields) {
        OnSubmit(fields, reply);
      }
    }
  }
}
