/** The place registration form (components/forms/PlaceForm.tsx): its schema,
    the turning of the accepted values into the row handed to `createPlace`,
    and the form's submit cycle. */
module PlaceForm {
  import opened Js
  import opened Records
  import opened Schema

  /** The form's values as the inputs hold them: the category select holds a
      string, and the optional text inputs may be missing. */
  datatype PlaceInput = PlaceInput(
    placeName: string,
    kind: string,
    address: Option<string>,
    description: Option<string>,
    imageUrl: Option<string>,
    tags: Option<string>)

  /** The values `onSubmit` receives once the schema has accepted them. */
  datatype PlaceValues = PlaceValues(
    placeName: string,
    kind: PlaceType,
    address: Option<string>,
    description: Option<string>,
    imageUrl: Option<string>,
    tags: Option<string>)

  /** The form's `defaultValues`, which `form.reset()` also restores. */
  const DefaultInput := PlaceInput("", "attraction", Some(""), Some(""), Some(""), Some(""))

  /** `z.enum(['cafe', 'restaurant', 'attraction', 'recommendation'])` */
  function ParsePlaceType(s: string): (r: Option<PlaceType>)
    ensures r.Some? ==> PlaceTypeName(r.value) == s
    ensures r.None? <==> forall t: PlaceType :: PlaceTypeName(t) != s
  {
    if s == "cafe" then Some(Cafe)
    else if s == "restaurant" then Some(Restaurant)
    else if s == "attraction" then Some(Attraction)
    else if s == "recommendation" then Some(Recommendation)
    else None
  }

  /** The category names and the enum are in one-to-one correspondence. */
  lemma PlaceTypeRoundTrip(t: PlaceType)
    ensures ParsePlaceType(PlaceTypeName(t)) == Some(t)
  {
  }

  /** The typed values shown back as form values. */
  function ToInput(v: PlaceValues): PlaceInput
  {
    PlaceInput(v.placeName, PlaceTypeName(v.kind), v.address, v.description, v.imageUrl, v.tags)
  }

  /** The schema (lines 16-25): a non-empty name, a known category, an image
      URL that is missing, empty or a URL; the other fields are free. */
  function Validate(raw: PlaceInput, isUrl: string -> bool): (r: Option<PlaceValues>)
    ensures r.Some? <==>
      raw.placeName != "" && ParsePlaceType(raw.kind).Some? && UrlOrEmpty(raw.imageUrl, isUrl)
    ensures r.Some? ==> ToInput(r.value) == raw
  {
    var kind := ParsePlaceType(raw.kind);
    if raw.placeName != "" && kind.Some? && UrlOrEmpty(raw.imageUrl, isUrl) then
      Some(PlaceValues(raw.placeName, kind.value, raw.address, raw.description, raw.imageUrl, raw.tags))
    else
      None
  }

  /** Values the schema accepts are accepted back unchanged. */
  lemma ValidateToInput(v: PlaceValues, isUrl: string -> bool)
    requires v.placeName != "" && UrlOrEmpty(v.imageUrl, isUrl)
    ensures Validate(ToInput(v), isUrl) == Some(v)
  {
    PlaceTypeRoundTrip(v.kind);
  }

  /** The form's defaults are accepted: an empty name is the only thing missing. */
  lemma DefaultsNeedOnlyAName(name: string, isUrl: string -> bool)
    requires name != ""
    ensures Validate(DefaultInput.(placeName := name), isUrl).Some?
    ensures Validate(DefaultInput, isUrl).None?
  {
    assert ParsePlaceType("attraction") == Some(Attraction);
  }

  /** A tag as the place row stores it: non-empty, trimmed, and free of the
      comma that separated it. */
  predicate IsTag(t: string)
  {
    t != "" && IsTrimmed(t) && ',' !in t
  }

  /** `tags ? tags.split(',').map(tag => tag.trim()).filter(Boolean) : null` */
  function ParseTags(tags: Option<string>): (r: Option<seq<string>>)
    ensures r.None? <==> !Truthy(tags)
  {
    if !Truthy(tags) then None
    else Some(Filter(Map(Split(tags.value, ','), Trim), NonEmpty))
  }

  /** Every tag parsed is a proper tag, and there are at most as many as
      there are comma-separated pieces. */
  lemma TagsWellFormed(tags: Option<string>)
    ensures ParseTags(tags).Some? ==>
      forall k :: 0 <= k < |ParseTags(tags).value| ==> IsTag(ParseTags(tags).value[k])
    ensures ParseTags(tags).Some? ==> |ParseTags(tags).value| <= Count(tags.value, ',') + 1
  {
    if !Truthy(tags) { return; }
    var pieces := Split(tags.value, ',');
    var trimmed := Map(pieces, Trim);
    SplitPiecesLackSeparator(tags.value, ',');
    SplitCount(tags.value, ',');
    forall j | 0 <= j < |trimmed|
      ensures IsTrimmed(trimmed[j]) && ',' !in trimmed[j]
    {
      TrimSpec(pieces[j]);
      TrimChars(pieces[j]);
    }
  }

  /** Tags typed as comma-separated pieces come back as the trimmed pieces,
      in input order, with the blank ones dropped. Every input is such a join,
      of its own split (`Js.JoinSplit`). */
  lemma TagsOfPieces(ps: seq<string>)
    requires |ps| >= 1
    requires forall k :: 0 <= k < |ps| ==> ',' !in ps[k]
    requires Join(ps, ",") != ""
    ensures ParseTags(Some(Join(ps, ","))) == Some(Filter(Map(ps, Trim), NonEmpty))
  {
    SplitJoin(ps, ',');
  }

  /** Joining proper tags with commas and parsing the result gives them back. */
  lemma TagsRoundTrip(ts: seq<string>)
    requires |ts| >= 1
    requires forall k :: 0 <= k < |ts| ==> IsTag(ts[k])
    ensures ParseTags(Some(Join(ts, ","))) == Some(ts)
  {
    var s := Join(ts, ",");
    SplitJoin(ts, ',');
    JoinContainsPiece(ts, ",", 0);
    assert s != "";
    forall k | 0 <= k < |ts|
      ensures Trim(ts[k]) == ts[k]
    {
      TrimTrimmed(ts[k]);
    }
    assert Map(Split(s, ','), Trim) == ts;
    FilterKeepsAll(ts, NonEmpty);
  }

  /** A tags input made only of commas and white space gives an empty list,
      not null. */
  lemma BlankTagsGiveEmptyList(s: string)
    requires s != ""
    requires forall k :: 0 <= k < |s| ==> s[k] == ',' || IsSpace(s[k])
    ensures ParseTags(Some(s)) == Some([])
  {
    var pieces := Split(s, ',');
    var trimmed := Map(pieces, Trim);
    SplitPiecesLackSeparator(s, ',');
    SplitPieceChars(s, ',');
    forall j | 0 <= j < |trimmed|
      ensures !NonEmpty(trimmed[j])
    {
      assert IsBlank(pieces[j]) by {
        forall i | 0 <= i < |pieces[j]|
          ensures IsSpace(pieces[j][i])
        {
          assert pieces[j][i] in s;
          assert pieces[j][i] != ',' by {
            assert pieces[j][i] in pieces[j];
          }
        }
      }
      TrimSpec(pieces[j]);
    }
    FilterKeepsNone(trimmed, NonEmpty);
  }

  /** A row the form can hand to `createPlace`: no optional column holds "",
      and every tag is a proper tag. */
  predicate Normalized(r: NewPlace)
  {
    r.address != Some("") && r.description != Some("") && r.imageUrl != Some("") &&
    (r.tags.Some? ==> forall k :: 0 <= k < |r.tags.value| ==> IsTag(r.tags.value[k]))
  }

  /** The `formData` of `onSubmit` (lines 52-64). */
  function ToNewPlace(v: PlaceValues): (r: NewPlace)
    ensures Normalized(r)
    ensures r.placeName == v.placeName && r.kind == v.kind
    ensures KeptOrNull(r.address, v.address) && KeptOrNull(r.description, v.description)
    ensures KeptOrNull(r.imageUrl, v.imageUrl)
    ensures r.tags == ParseTags(v.tags)
  {
    TagsWellFormed(v.tags);
    NewPlace(v.placeName, v.kind, OrNull(v.address), OrNull(v.description), OrNull(v.imageUrl), ParseTags(v.tags))
  }

  /** An accepted form gives a row with a name, the chosen category, and an
      image that is either absent or a URL. */
  lemma AcceptedRow(raw: PlaceInput, isUrl: string -> bool)
    requires Validate(raw, isUrl).Some?
    ensures var r := ToNewPlace(Validate(raw, isUrl).value);
      r.placeName == raw.placeName && r.placeName != "" &&
      PlaceTypeName(r.kind) == raw.kind &&
      (r.imageUrl.None? || isUrl(r.imageUrl.value))
  {
  }

  /** Submitting the untouched optional fields stores nulls, not empty strings. */
  lemma UntouchedOptionalsBecomeNull(name: string, kind: PlaceType)
    ensures var r := ToNewPlace(PlaceValues(name, kind, Some(""), Some(""), Some(""), Some("")));
      r.address.None? && r.description.None? && r.imageUrl.None? && r.tags.None?
  {
  }

  /** The mounted form: its current values, the submitting flag, and the rows
      it has handed to `createPlace`, oldest first. */
  class Form {
    var fields: PlaceInput
    var isSubmitting: bool
    var sent: seq<NewPlace>

    /** Every row the form has sent is normalised. */
    ghost predicate Valid()
      reads this
    {
      forall k :: 0 <= k < |sent| ==> Normalized(sent[k])
    }

    constructor ()
      ensures Valid()
      ensures fields == DefaultInput && !isSubmitting && sent == []
    {
      fields := DefaultInput;
      isSubmitting := false;
      sent := [];
    }

    /** The user editing the inputs (react-hook-form's field `onChange`):
        the values change, nothing is submitted. */
    method SetFields(f: PlaceInput)
      requires Valid()
      modifies this`fields
      ensures Valid() && fields == f
    {
      fields := f;
    }

    /** `onSubmit` (lines 45-80). `created` is whether `createPlace` resolved:
        the row is sent either way, the fields go back to their defaults only
        when it resolved, and the submitting flag is always cleared. */
    method OnSubmit(values: PlaceValues, created: bool)
      requires Valid()
      modifies this
      ensures Valid()
      ensures sent == old(sent) + [ToNewPlace(values)]
      ensures fields == (if created then DefaultInput else old(fields))
      ensures !isSubmitting
    {
      isSubmitting := true;
      var formData := ToNewPlace(values);
      sent := sent + [formData];
      if created {
        fields := DefaultInput;
      }
      isSubmitting := false;
    }

    /** `form.handleSubmit(onSubmit)`: the schema runs on the current fields,
        and only accepted values reach `onSubmit`. */
    method HandleSubmit(isUrl: string -> bool, created: bool)
      requires Valid()
      modifies this
      ensures Valid()
      ensures Validate(old(fields), isUrl).None? ==>
        sent == old(sent) && fields == old(fields) && isSubmitting == old(isSubmitting)
      ensures Validate(old(fields), isUrl).Some? ==>
        sent == old(sent) + [ToNewPlace(Validate(old(fields), isUrl).value)] &&
        fields == (if created then DefaultInput else old(fields)) && !isSubmitting
    {
      var values := Validate(fields, isUrl);
      if values.Some? {
        OnSubmit(values.value, created);
      }
    }
  }

  /** A user opening the form, typing the inputs of a place and pressing the
      submit button: exactly that place's row is sent, and the form is back at
      its defaults when the backend took it. */
  method RegisterPlace(v: PlaceValues, isUrl: string -> bool, created: bool) returns (form: Form)
    requires v.placeName != "" && UrlOrEmpty(v.imageUrl, isUrl)
    ensures form.Valid()
    ensures form.sent == [ToNewPlace(v)]
    ensures form.fields == (if created then DefaultInput else ToInput(v))
    ensures !form.isSubmitting
  {
    form := new Form();
    form.SetFields(ToInput(v));
    ValidateToInput(v, isUrl);
    form.HandleSubmit(isUrl, created);
  }
}
