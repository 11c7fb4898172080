/**
 * Artist-name helpers for the artist widget: validation, display
 * capitalisation and widget-configuration builders.
 */
module ArtistUtils {

  import opened Wrappers
  import Js

  /** An argument as JavaScript sees it at run time: the declared string, or
      some other value passed by an untyped caller. */
  datatype Arg = Str(s: string) | NotAString

  /** The longest artist name accepted, in UTF-16 code units (JavaScript's
      `length`): a character outside the Basic Multilingual Plane counts twice. */
  const MaxNameLength := 100

  /** `validateArtistName`: the trimmed name, or None (null) for a non-string,
      an empty string, or a trimmed name that is empty or too long. */
  function ValidateArtistName(a: Arg): (r: Option<string>)
    ensures r.None? <==> a.NotAString? || Js.Trim(a.s) == "" || Js.Utf16Length(Js.Trim(a.s)) > MaxNameLength
    ensures r.Some? ==> r.value == Js.Trim(a.s)
  {
    if a.NotAString? || a.s == "" then None
    else
      var trimmed := Js.Trim(a.s);
      if |trimmed| == 0 || Js.Utf16Length(trimmed) > MaxNameLength then None
      else Some(trimmed)
  }

  /** A validated name has 1 to 100 UTF-16 code units (so at most 100
      characters), no whitespace at either end, and is a contiguous piece of
      the input. */
  lemma ValidatedNameShape(a: Arg)
    requires ValidateArtistName(a).Some?
    ensures var r := ValidateArtistName(a).value;
      && 1 <= |r| && Js.Utf16Length(r) <= MaxNameLength && |r| <= MaxNameLength
      && !Js.IsWhitespace(r[0]) && !Js.IsWhitespace(r[|r| - 1])
      && var k := Js.SkipForward(a.s, 0); k + |r| <= |a.s| && r == a.s[k..k + |r|]
  {
    var r := Js.Trim(a.s);
    assert ValidateArtistName(a).value == r;
    Js.TrimSpec(a.s);
  }

  /** Validating an already validated name returns it unchanged. */
  lemma ValidateIdempotent(a: Arg)
    requires ValidateArtistName(a).Some?
    ensures ValidateArtistName(Str(ValidateArtistName(a).value)) == ValidateArtistName(a)
  {
    Js.TrimIdempotent(a.s);
  }

  /** One word: its first character upper-cased, the rest lower-cased. */
  function Capitalize(w: string): (r: string)
    ensures |r| == |w|
    ensures w != "" ==> r[0] == Js.ToUpper(w[0])
    ensures forall i :: 1 <= i < |w| ==> r[i] == Js.ToLower(w[i])
  {
    if w == "" then "" else [Js.ToUpper(w[0])] + Js.LowerAll(w[1..])
  }

  /** `.map(word => ...)` with Capitalize. */
  function CapitalizeAll(words: seq<string>): (r: seq<string>)
    ensures |r| == |words| && forall i :: 0 <= i < |words| ==> r[i] == Capitalize(words[i])
    decreases |words|
  {
    if words == [] then [] else [Capitalize(words[0])] + CapitalizeAll(words[1..])
  }

  /** `formatArtistName`: split on spaces, capitalize every word, join with spaces. */
  function FormatArtistName(s: string): string {
    Js.Join(CapitalizeAll(Js.Split(s, ' ')), " ")
  }

  /** The character a position of the formatted name holds: upper-cased at the
      start of a word, lower-cased elsewhere. */
  function FormattedChar(s: string, i: nat): char
    requires i < |s|
  {
    if i == 0 || s[i - 1] == ' ' then Js.ToUpper(s[i]) else Js.ToLower(s[i])
  }

  /** Unfolds FormatArtistName at the first space. */
  lemma FormatUnfold(s: string)
    ensures ' ' !in s ==> FormatArtistName(s) == Capitalize(s)
    ensures ' ' in s ==>
      var k := Js.IndexOf(s, ' ');
      FormatArtistName(s) == Capitalize(s[..k]) + " " + FormatArtistName(s[k + 1..])
  {
    if ' ' in s {
      var k := Js.IndexOf(s, ' ');
      var rest := Js.Split(s[k + 1..], ' ');
      assert Js.Split(s, ' ') == [s[..k]] + rest;
      var caps := CapitalizeAll(Js.Split(s, ' '));
      assert caps[1..] == CapitalizeAll(rest);
    }
  }

  /** Within the first word: upper-cased at position 0, lower-cased after. */
  lemma CapitalizeChar(w: string, i: nat)
    requires i < |w|
    ensures Capitalize(w)[i] == if i == 0 then Js.ToUpper(w[0]) else Js.ToLower(w[i])
  {
    if i > 0 {
      assert Capitalize(w)[i] == Js.LowerAll(w[1..])[i - 1];
    }
  }

  /** A position before the first space holds FormattedChar. */
  lemma FirstWordChar(s: string, k: nat, i: nat)
    requires k < |s| && ' ' !in s[..k] && i < k
    ensures Capitalize(s[..k])[i] == FormattedChar(s, i)
  {
    CapitalizeChar(s[..k], i);
    assert s[..k][i] == s[i];
    if 0 < i {
      assert s[..k][i - 1] == s[i - 1];
    }
  }

  /** A position after the first space holds FormattedChar when the rest of
      the name does. */
  lemma RestChar(s: string, k: nat, rest: string, i: nat)
    requires k < |s| && s[k] == ' ' && k < i < |s|
    requires |rest| == |s| - k - 1
    requires forall j :: 0 <= j < |rest| ==> rest[j] == FormattedChar(s[k + 1..], j)
    ensures rest[i - k - 1] == FormattedChar(s, i)
  {
    var t := s[k + 1..];
    assert t[i - k - 1] == s[i];
    if i - k - 1 > 0 {
      assert t[i - k - 2] == s[i - 1];
    }
  }

  /** Character by character: the length is kept and each position holds
      FormattedChar. */
  lemma {:induction false} FormatArtistNameChars(s: string)
    ensures |FormatArtistName(s)| == |s|
    ensures forall i :: 0 <= i < |s| ==> FormatArtistName(s)[i] == FormattedChar(s, i)
    decreases |s|
  {
    FormatUnfold(s);
    var r := FormatArtistName(s);
    if ' ' !in s {
      forall i | 0 <= i < |s| ensures r[i] == FormattedChar(s, i) {
        CapitalizeChar(s, i);
        if 0 < i {
          assert s[i - 1] in s;
        }
      }
    } else {
      var k := Js.IndexOf(s, ' ');
      var first, rest := Capitalize(s[..k]), FormatArtistName(s[k + 1..]);
      FormatArtistNameChars(s[k + 1..]);
      assert r == first + " " + rest;
      forall i | 0 <= i < |s| ensures r[i] == FormattedChar(s, i) {
        if i < k {
          assert r[i] == first[i];
          FirstWordChar(s, k, i);
        } else if i > k {
          assert r[i] == rest[i - k - 1];
          RestChar(s, k, rest, i);
        }
      }
    }
  }

  /** Spaces stay where they are, and no other character becomes a space. */
  lemma FormatKeepsSpaces(s: string, i: nat)
    requires i < |s|
    ensures |FormatArtistName(s)| == |s|
    ensures FormatArtistName(s)[i] == ' ' <==> s[i] == ' '
  {
    FormatArtistNameChars(s);
  }

  /** Formatting twice is formatting once. */
  lemma FormatIdempotent(s: string)
    ensures FormatArtistName(FormatArtistName(s)) == FormatArtistName(s)
  {
    var r := FormatArtistName(s);
    FormatArtistNameChars(s);
    FormatArtistNameChars(r);
    forall i | 0 <= i < |r| ensures FormatArtistName(r)[i] == r[i] {
      FormattedCharTwice(s, r, i);
    }
  }

  /** Formatting a position of an already formatted name changes nothing. */
  lemma FormattedCharTwice(s: string, r: string, i: nat)
    requires |r| == |s| && i < |s|
    requires forall j :: 0 <= j < |s| ==> r[j] == FormattedChar(s, j)
    ensures FormattedChar(r, i) == r[i]
  {
    if i > 0 {
      assert r[i - 1] == FormattedChar(s, i - 1);
      assert (r[i - 1] == ' ') == (s[i - 1] == ' ');
    }
    assert r[i] == FormattedChar(s, i);
  }

  /** The optional settings of `createArtistWidgetConfig`; None is undefined. */
  datatype ConfigOptions = ConfigOptions(
    showSeeMore: Option<bool>,
    initialTrackCount: Option<int>,
    showPreviews: Option<bool>,
    className: Option<string>)

  /** The default `options = {}`. */
  const NoOptions := ConfigOptions(None, None, None, None)

  datatype ArtistWidgetConfig = ArtistWidgetConfig(
    artistName: string,
    showSeeMore: bool,
    initialTrackCount: int,
    showPreviews: bool,
    className: string)

  /** `createArtistWidgetConfig`: `??` defaults for the flags and the count,
      `||` defaults for the name and the class name. */
  function CreateArtistWidgetConfig(artistName: string, options: ConfigOptions): ArtistWidgetConfig {
    var validated := ValidateArtistName(Str(artistName));
    ArtistWidgetConfig(
      artistName := if validated.Some? && validated.value != "" then validated.value else artistName,
      showSeeMore := options.showSeeMore.GetOr(true),
      initialTrackCount := options.initialTrackCount.GetOr(5),
      showPreviews := options.showPreviews.GetOr(true),
      className := if options.className.Some? && options.className.value != "" then options.className.value else "")
  }

  /** Defaults apply only to missing options, so an explicit `false` or `0` is
      kept; the class name is `''` when missing or empty; the artist name is
      the trimmed name when it validates and the raw input otherwise. */
  lemma CreateArtistWidgetConfigSpec(artistName: string, options: ConfigOptions)
    ensures var r := CreateArtistWidgetConfig(artistName, options);
      && (r.showSeeMore == if options.showSeeMore.Some? then options.showSeeMore.value else true)
      && (r.initialTrackCount == if options.initialTrackCount.Some? then options.initialTrackCount.value else 5)
      && (r.showPreviews == if options.showPreviews.Some? then options.showPreviews.value else true)
      && (options.className.None? || options.className == Some("") ==> r.className == "")
      && (options.className.Some? && options.className.value != "" ==> r.className == options.className.value)
      && (ValidateArtistName(Str(artistName)).Some? ==> r.artistName == Js.Trim(artistName))
      && (ValidateArtistName(Str(artistName)).None? ==> r.artistName == artistName)
  {
  }

  /** A widget configuration; every setting but the name may be undefined. */
  datatype WidgetConfig = WidgetConfig(
    artistName: Option<string>,
    className: Option<string>,
    apiEndpoint: Option<string>,
    showSeeMore: Option<bool>,
    initialTrackCount: Option<int>,
    showPreviews: Option<bool>,
    loadingMessage: Option<string>,
    errorMessage: Option<string>)

  /** The base's `artistName` key: absent, present with the value
      `undefined`, or present with a string. */
  datatype NameKey = Absent | Undefined | Given(name: string)

  /** `Partial<SpotifyArtistWidgetConfig>`: None marks a key that is absent
      or undefined, which the spread treats alike for every key but the
      name (the result holds undefined either way). */
  datatype PartialConfig = PartialConfig(
    artistName: NameKey,
    className: Option<string>,
    apiEndpoint: Option<string>,
    showSeeMore: Option<bool>,
    initialTrackCount: Option<int>,
    showPreviews: Option<bool>,
    loadingMessage: Option<string>,
    errorMessage: Option<string>)

  /** The `artistName` after the spread: the base's key when present, even
      when its value is `undefined`, else the validated name. */
  function SpreadName(key: NameKey, artistName: string): (r: Option<string>)
    ensures key.Absent? ==> r == Some(artistName)
    ensures key.Undefined? ==> r.None?
    ensures key.Given? ==> r == Some(key.name)
  {
    match key
    case Absent => Some(artistName)
    case Undefined => None
    case Given(n) => Some(n)
  }

  /** `{ artistName, ...baseConfig }`: a key present in the base overrides,
      even when its value is `undefined`. */
  function WithBase(artistName: string, base: PartialConfig): WidgetConfig {
    WidgetConfig(
      SpreadName(base.artistName, artistName), base.className, base.apiEndpoint, base.showSeeMore,
      base.initialTrackCount, base.showPreviews, base.loadingMessage, base.errorMessage)
  }

  /** `.filter(name => name !== null)` over validation results. */
  function Present(xs: seq<Option<string>>): (r: seq<string>)
    ensures |r| <= |xs|
    ensures forall y :: y in r <==> Some(y) in xs
    decreases |xs|
  {
    if xs == [] then []
    else (if xs[0].Some? then [xs[0].value] else []) + Present(xs[1..])
  }

  /** `.map(name => validateArtistName(name))`. */
  function Validated(names: seq<string>): (r: seq<Option<string>>)
    ensures |r| == |names| && forall i :: 0 <= i < |names| ==> r[i] == ValidateArtistName(Str(names[i]))
    decreases |names|
  {
    if names == [] then [] else [ValidateArtistName(Str(names[0]))] + Validated(names[1..])
  }

  lemma {:induction false} ValidatedAppend(names: seq<string>, more: seq<string>)
    ensures Validated(names + more) == Validated(names) + Validated(more)
    decreases |names|
  {
    if names == [] {
      assert names + more == more;
    } else {
      assert (names + more)[1..] == names[1..] + more;
      ValidatedAppend(names[1..], more);
    }
  }

  /** `createMultipleArtistWidgets`: validate every name, drop the invalid
      ones, and build one configuration from each remaining name. */
  function CreateMultipleArtistWidgets(names: seq<string>, base: PartialConfig): seq<WidgetConfig> {
    Configs(Present(Validated(names)), base)
  }

  /** `.map(artistName => ({ artistName, ...baseConfig }))`. */
  function Configs(valid: seq<string>, base: PartialConfig): (r: seq<WidgetConfig>)
    ensures |r| == |valid| && forall i :: 0 <= i < |valid| ==> r[i] == WithBase(valid[i], base)
  {
    seq(|valid|, i requires 0 <= i < |valid| => WithBase(valid[i], base))
  }

  lemma ConfigsAppend(a: seq<string>, b: seq<string>, base: PartialConfig)
    ensures Configs(a + b, base) == Configs(a, base) + Configs(b, base)
  {
    var whole, parts := Configs(a + b, base), Configs(a, base) + Configs(b, base);
    forall i | 0 <= i < |whole| ensures whole[i] == parts[i] {
      if i < |a| {
        assert (a + b)[i] == a[i];
      } else {
        assert (a + b)[i] == b[i - |a|];
      }
    }
  }

  lemma {:induction false} PresentAppend(xs: seq<Option<string>>, ys: seq<Option<string>>)
    ensures Present(xs + ys) == Present(xs) + Present(ys)
    decreases |xs|
  {
    if xs == [] {
      assert xs + ys == ys;
    } else {
      var head := if xs[0].Some? then [xs[0].value] else [];
      assert (xs + ys)[0] == xs[0];
      assert (xs + ys)[1..] == xs[1..] + ys;
      PresentAppend(xs[1..], ys);
      calc {
        Present(xs + ys);
        head + Present(xs[1..] + ys);
        head + (Present(xs[1..]) + Present(ys));
        (head + Present(xs[1..])) + Present(ys);
      }
    }
  }

  /** A present value is kept and an absent one dropped; with PresentAppend
      this fixes Present on every list: the present values in their order. */
  lemma PresentSingle(x: Option<string>)
    ensures Present([x]) == if x.Some? then [x.value] else []
  {
    assert [x][1..] == [];
  }

  /** The builder distributes over concatenation of the name list ... */
  lemma CreateMultipleAppend(names: seq<string>, more: seq<string>, base: PartialConfig)
    ensures CreateMultipleArtistWidgets(names + more, base)
         == CreateMultipleArtistWidgets(names, base) + CreateMultipleArtistWidgets(more, base)
  {
    ValidatedAppend(names, more);
    PresentAppend(Validated(names), Validated(more));
    ConfigsAppend(Present(Validated(names)), Present(Validated(more)), base);
  }

  /** ... and a single name gives one configuration, named by its trimmed form,
      exactly when it validates; together: exactly the valid names, trimmed,
      in their original order. */
  lemma CreateMultipleSingle(name: string, base: PartialConfig)
    ensures CreateMultipleArtistWidgets([name], base)
         == if ValidateArtistName(Str(name)).Some? then [WithBase(Js.Trim(name), base)] else []
  {
    var xs := [ValidateArtistName(Str(name))];
    assert Validated([name]) == xs by { assert [name][1..] == []; }
    assert Present(xs) == (if xs[0].Some? then [xs[0].value] else []) + Present([]);
  }

  /** The number of names that validate. */
  function CountValid(names: seq<string>): (n: nat)
    ensures n <= |names|
    ensures n == |names| <==> forall i :: 0 <= i < |names| ==> ValidateArtistName(Str(names[i])).Some?
    decreases |names|
  {
    if names == [] then 0
    else (if ValidateArtistName(Str(names[0])).Some? then 1 else 0) + CountValid(names[1..])
  }

  /** One configuration per valid name, so never more than the input holds. */
  lemma {:induction false} CreateMultipleLength(names: seq<string>, base: PartialConfig)
    ensures |CreateMultipleArtistWidgets(names, base)| == CountValid(names) <= |names|
    decreases |names|
  {
    if names != [] {
      CreateMultipleAppend([names[0]], names[1..], base);
      assert [names[0]] + names[1..] == names;
      CreateMultipleSingle(names[0], base);
      CreateMultipleLength(names[1..], base);
    }
  }

  /** Every key of the base configuration reaches every element, and a base
      `artistName` key overrides the validated name, leaving it undefined
      when the key's value is `undefined`. */
  lemma CreateMultipleCarriesBase(names: seq<string>, base: PartialConfig, j: nat)
    requires j < |CreateMultipleArtistWidgets(names, base)|
    ensures var c := CreateMultipleArtistWidgets(names, base)[j];
      && (base.artistName.Given? ==> c.artistName == Some(base.artistName.name))
      && (base.artistName.Undefined? ==> c.artistName.None?)
      && c.className == base.className && c.apiEndpoint == base.apiEndpoint
      && c.showSeeMore == base.showSeeMore && c.initialTrackCount == base.initialTrackCount
      && c.showPreviews == base.showPreviews && c.loadingMessage == base.loadingMessage
      && c.errorMessage == base.errorMessage
  {
  }
}
