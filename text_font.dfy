/**
 * `TextObject`: the font URL derived from the family name, and the conversion of the
 * pixel-like font size into world units.
 */
module TextFont {
  import opened Ascii

  const FontUrlPrefix: string := "https://fonts.gstatic.com/s/"
  const FontUrlSuffix: string := "/v18/*"

  /** `.replace(/ /g, '')`: every U+0020 removed, every other character kept with its
      multiplicity, and removal distributes over concatenation (so order is kept). */
  function RemoveSpaces(s: string): (r: string)
    ensures |r| <= |s|
    ensures forall i | 0 <= i < |r| :: r[i] != ' '
  {
    if s == [] then [] else (if s[0] == ' ' then [] else [s[0]]) + RemoveSpaces(s[1..])
  }

  /** Every character other than a space is kept as often as it occurs, and only
      characters of `s` appear in the result. */
  lemma {:induction false} RemoveSpacesKeepsOthers(s: string)
    ensures forall c | c != ' ' :: multiset(RemoveSpaces(s))[c] == multiset(s)[c]
    ensures multiset(RemoveSpaces(s)) <= multiset(s)
  {
    if s != [] {
      RemoveSpacesKeepsOthers(s[1..]);
      assert s == [s[0]] + s[1..];
    }
  }

  lemma {:induction false} RemoveSpacesAppend(a: string, b: string)
    ensures RemoveSpaces(a + b) == RemoveSpaces(a) + RemoveSpaces(b)
  {
    if a == [] {
      assert a + b == b;
    } else {
      var head := if a[0] == ' ' then [] else [a[0]];
      assert (a + b)[0] == a[0];
      assert (a + b)[1..] == a[1..] + b;
      RemoveSpacesAppend(a[1..], b);
      assert RemoveSpaces(a + b) == head + (RemoveSpaces(a[1..]) + RemoveSpaces(b));
      assert RemoveSpaces(a) == head + RemoveSpaces(a[1..]);
    }
  }

  /** A string without spaces is left alone. */
  lemma {:induction false} RemoveSpacesFixesSpaceless(s: string)
    requires forall i | 0 <= i < |s| :: s[i] != ' '
    ensures RemoveSpaces(s) == s
  {
    if s != [] {
      RemoveSpacesFixesSpaceless(s[1..]);
    }
  }

  /** The family's path segment: lower-cased, then stripped of spaces. */
  function FontSlug(fontFamily: string): (slug: string)
    ensures forall i | 0 <= i < |slug| :: slug[i] != ' ' && !IsUpper(slug[i])
  {
    var lower := ToLower(fontFamily);
    RemoveSpacesKeepsOthers(lower);
    var slug := RemoveSpaces(lower);
    assert forall i | 0 <= i < |slug| :: slug[i] in multiset(lower);
    slug
  }

  /** The `font` prop: the slug between a fixed prefix and suffix. */
  function FontUrl(fontFamily: string): (url: string)
    ensures |url| == |FontUrlPrefix| + |FontSlug(fontFamily)| + |FontUrlSuffix|
    ensures url[..|FontUrlPrefix|] == FontUrlPrefix
    ensures url[|url| - |FontUrlSuffix|..] == FontUrlSuffix
  {
    FontUrlPrefix + FontSlug(fontFamily) + FontUrlSuffix
  }

  /** The slug can be read back out of the URL: the URL determines it. */
  function SlugOfUrl(url: string): (slug: string)
    requires |url| >= |FontUrlPrefix| + |FontUrlSuffix|
  {
    url[|FontUrlPrefix|..|url| - |FontUrlSuffix|]
  }

  lemma FontUrlRoundTrip(fontFamily: string)
    ensures SlugOfUrl(FontUrl(fontFamily)) == FontSlug(fontFamily)
  {
    var slug := FontSlug(fontFamily);
    assert FontUrl(fontFamily)[|FontUrlPrefix|..|FontUrlPrefix| + |slug|] == slug;
  }

  /** The slug is the family's non-space characters, in their original order, each
      lower-cased: lower-casing and space removal commute. Other whitespace (a tab, say)
      survives. */
  lemma {:induction false} FontSlugKeepsNonSpaces(fontFamily: string)
    ensures FontSlug(fontFamily) == ToLower(RemoveSpaces(fontFamily))
  {
    if fontFamily != [] {
      var c, rest := fontFamily[0], fontFamily[1..];
      assert fontFamily == [c] + rest;
      ToLowerAppend([c], rest);
      RemoveSpacesAppend(ToLower([c]), ToLower(rest));
      FontSlugKeepsNonSpaces(rest);
      RemoveSpacesAppend([c], rest);
      ToLowerAppend(RemoveSpaces([c]), RemoveSpaces(rest));
      assert RemoveSpaces(ToLower([c])) == ToLower(RemoveSpaces([c])) by {
        assert ToLower([c]) == [LowerChar(c)];
      }
    }
  }

  /** Deriving the slug twice changes nothing. */
  lemma FontSlugIdempotent(fontFamily: string)
    ensures FontSlug(FontSlug(fontFamily)) == FontSlug(fontFamily)
  {
    var slug := FontSlug(fontFamily);
    ToLowerFixesLower(slug);
    RemoveSpacesFixesSpaceless(slug);
  }

  /** `fontSize / 100`: the size in world units of a size given in pixel-like units. */
  function WorldFontSize(fontSize: real): (size: real)
    ensures size * 100.0 == fontSize
  {
    fontSize / 100.0
  }

  /** The conversion is linear, and 100 maps to one world unit. */
  lemma WorldFontSizeLinear(a: real, b: real, k: real)
    ensures WorldFontSize(a + b) == WorldFontSize(a) + WorldFontSize(b)
    ensures WorldFontSize(k * a) == k * WorldFontSize(a)
    ensures WorldFontSize(100.0) == 1.0
  {
  }
}
