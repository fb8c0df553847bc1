/** The URL slug of a visit post: the `slug` field of the visit forms, checked
    by `z.string().min(1).regex(/^[a-z0-9-]+$/)`, and the last segment of the
    post's address `/visit/<slug>`. */
module Slug {
  import opened Js

  /** One character of the class `[a-z0-9-]`. */
  predicate IsSlugChar(c: char)
  {
    ('a' <= c <= 'z') || ('0' <= c <= '9') || c == '-'
  }

  /** The language of `^[a-z0-9-]+$`: one or more slug characters and nothing else. */
  ghost predicate InSlugLanguage(s: string)
  {
    |s| >= 1 && forall k :: 0 <= k < |s| ==> IsSlugChar(s[k])
  }

  /** The anchored character-class run from index `i` to the end. */
  function RunFrom(s: string, i: nat): (r: bool)
    requires i <= |s|
    ensures r <==> forall k :: i <= k < |s| ==> IsSlugChar(s[k])
    decreases |s| - i
  {
    i == |s| || (IsSlugChar(s[i]) && RunFrom(s, i + 1))
  }

  /** The slug schema: `min(1)` and the regular expression. */
  function IsSlug(s: string): (r: bool)
    ensures r <==> InSlugLanguage(s)
  {
    |s| >= 1 && RunFrom(s, 0)
  }

  /** The edit form's `.optional()` slug: absent, or a slug. */
  predicate OptionalSlugOk(slug: Option<string>)
  {
    slug.None? || IsSlug(slug.value)
  }

  /** A slug is one path segment: no separator, query, fragment, space or
      upper-case letter can appear in it, and it cannot be blank. */
  lemma SlugIsPathSegment(s: string)
    requires IsSlug(s)
    ensures '/' !in s && '?' !in s && '#' !in s && '%' !in s
    ensures forall k :: 0 <= k < |s| ==> !IsSpace(s[k]) && !('A' <= s[k] <= 'Z')
    ensures Trim(s) == s
  {
    TrimTrimmed(s);
  }

  /** The post address `/visit/<slug>` gives the slug back after its prefix. */
  lemma VisitPathRoundTrip(s: string)
    requires IsSlug(s)
    ensures StartsWith("/visit/" + s, "/visit/")
    ensures ("/visit/" + s)[7..] == s
    ensures forall k :: 7 <= k < |"/visit/" + s| ==> ("/visit/" + s)[k] != '/'
  {
    SlugIsPathSegment(s);
  }
}
