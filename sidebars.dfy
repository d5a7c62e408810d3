/**
 * The property-editing logic of src/components/sidebars/Sidebars.tsx: the
 * numeric clamp, the hex-colour normaliser, the rule that picks the layer the
 * design panel edits, and the `updateLayer` mutation, which turns a partial
 * update from the panel into a patch of clamped, validated values and applies
 * it to the selected layer through the store's mutation runner.
 */
module Sidebars {
  import opened Wrappers
  import opened Types
  import opened Liveblocks

  // ---------------------------------------------------------------------------
  // clamp

  function Max(a: real, b: real): real { if a >= b then a else b }

  function Min(a: real, b: real): real { if a <= b then a else b }

  /** `value` lies within whichever bounds are given. */
  predicate InBounds(value: real, min: Option<real>, max: Option<real>) {
    (min.None? || min.value <= value) && (max.None? || value <= max.value)
  }

  /** `clamp`: raise to `min` if given, then lower to `max` if given (so `max` wins a conflict). */
  function Clamp(value: real, min: Option<real>, max: Option<real>): (r: real)
    ensures max.Some? ==> r <= max.value
    ensures min.Some? && (max.None? || min.value <= max.value) ==> min.value <= r
    ensures min.Some? && max.Some? && max.value < min.value ==> r == max.value
    ensures InBounds(value, min, max) ==> r == value
    ensures min.Some? && value < min.value && (max.None? || min.value <= max.value) ==> r == min.value
    ensures max.Some? && max.value < value ==> r == max.value
  {
    var raised := if min.Some? then Max(min.value, value) else value;
    if max.Some? then Min(max.value, raised) else raised
  }

  /** With no bounds `clamp` is the identity, and it never moves a value twice. */
  lemma ClampLaws(value: real, min: Option<real>, max: Option<real>)
    ensures Clamp(value, None, None) == value
    ensures min.Some? && max.Some? && min.value <= max.value ==>
      Clamp(Clamp(value, min, max), min, max) == Clamp(value, min, max)
  {
  }

  // ---------------------------------------------------------------------------
  // normalizeHex

  /** The characters JavaScript's `String.prototype.trim` removes (white space and line terminators). */
  predicate IsWhitespace(c: char) {
    || c == '\t' || c == '\n' || c == '\U{000B}' || c == '\U{000C}' || c == '\r' || c == ' '
    || c == '\U{00A0}' || c == '\U{1680}' || ('\U{2000}' <= c <= '\U{200A}')
    || c == '\U{2028}' || c == '\U{2029}' || c == '\U{202F}' || c == '\U{205F}'
    || c == '\U{3000}' || c == '\U{FEFF}'
  }

  /** Drops leading white space: what is left is a suffix whose first character is not white space. */
  function TrimStart(s: string): (r: string)
    ensures |r| <= |s| && r == s[|s| - |r|..]
    ensures forall i :: 0 <= i < |s| - |r| ==> IsWhitespace(s[i])
    ensures r != [] ==> !IsWhitespace(r[0])
    decreases |s|
  {
    if |s| > 0 && IsWhitespace(s[0]) then TrimStart(s[1..]) else s
  }

  /** Drops trailing white space: what is left is a prefix whose last character is not white space. */
  function TrimEnd(s: string): (r: string)
    ensures |r| <= |s| && r == s[..|r|]
    ensures forall i :: |r| <= i < |s| ==> IsWhitespace(s[i])
    ensures r != [] ==> !IsWhitespace(r[|r| - 1])
    decreases |s|
  {
    if |s| > 0 && IsWhitespace(s[|s| - 1]) then TrimEnd(s[..|s| - 1]) else s
  }

  /** `trim`: no white space is left at either end, and a string without any there is unchanged. */
  function Trim(s: string): (r: string)
    ensures |r| <= |s|
    ensures r != [] ==> !IsWhitespace(r[0]) && !IsWhitespace(r[|r| - 1])
    ensures |s| > 0 && !IsWhitespace(s[0]) && !IsWhitespace(s[|s| - 1]) ==> r == s
  {
    var t := TrimStart(s);
    var r := TrimEnd(t);
    assert r != [] ==> r[0] == t[0];
    r
  }

  predicate IsHexDigit(c: char) {
    ('0' <= c <= '9') || ('a' <= c <= 'f') || ('A' <= c <= 'F')
  }

  predicate IsUpperHexDigit(c: char) {
    ('0' <= c <= '9') || ('A' <= c <= 'F')
  }

  predicate AllHex(s: string) {
    forall i :: 0 <= i < |s| ==> IsHexDigit(s[i])
  }

  /** `toUpperCase` on the characters a hex string can hold. */
  function UpperChar(c: char): (u: char)
    ensures 'a' <= c <= 'f' ==> u as int == c as int - 32
    ensures !('a' <= c <= 'f') ==> u == c
    ensures IsHexDigit(c) ==> IsUpperHexDigit(u)
    ensures IsUpperHexDigit(c) ==> u == c
  {
    match c
    case 'a' => 'A'
    case 'b' => 'B'
    case 'c' => 'C'
    case 'd' => 'D'
    case 'e' => 'E'
    case 'f' => 'F'
    case _ => c
  }

  /** `toUpperCase`, character by character. */
  function Upper(s: string): (r: string)
    ensures |r| == |s|
    ensures forall i :: 0 <= i < |s| ==> r[i] == UpperChar(s[i])
  {
    seq(|s|, i requires 0 <= i < |s| => UpperChar(s[i]))
  }

  /** The body after one leading `#` (if any) is dropped. */
  function StripHash(s: string): string {
    if |s| > 0 && s[0] == '#' then s[1..] else s
  }

  /** `split("").map(c => c + c).join("")` for a three-character body. */
  function DoubleEach(s: string): (r: string)
    requires |s| == 3
  {
    [s[0], s[0], s[1], s[1], s[2], s[2]]
  }

  /** The shape every accepted colour has: `#` and six upper-case hex digits. */
  predicate IsNormalHex(h: string) {
    |h| == 7 && h[0] == '#' && forall i :: 1 <= i < 7 ==> IsUpperHexDigit(h[i])
  }

  /** The steps of `normalizeHex` after trimming and dropping the `#`: expand three digits, check, upper-case. */
  function NormalizeBody(body: string): (r: Option<string>)
    ensures r.Some? ==> IsNormalHex(r.value)
  {
    var normalized := if |body| == 3 then DoubleEach(body) else body;
    if |normalized| == 6 && AllHex(normalized) then
      var hex := "#" + Upper(normalized);
      assert forall i :: 1 <= i < 7 ==> hex[i] == UpperChar(normalized[i - 1]);
      Some(hex)
    else None
  }

  /** `normalizeHex`: trim, drop one `#`, expand three digits to six, upper-case; anything else is rejected. */
  function NormalizeHex(value: string): (r: Option<string>)
    ensures r.Some? ==> IsNormalHex(r.value)
  {
    NormalizeBody(StripHash(Trim(value)))
  }

  /** Which bodies are accepted: six hex digits, or three hex digits that are then doubled. */
  lemma NormalizeBodyAccepts(body: string)
    ensures && (NormalizeBody(body).Some? <==> (|body| == 6 || |body| == 3) && AllHex(body))
      && (|body| == 6 && AllHex(body) ==> NormalizeBody(body) == Some("#" + Upper(body)))
      && (|body| == 3 && AllHex(body) ==>
            NormalizeBody(body) == Some(['#', UpperChar(body[0]), UpperChar(body[0]),
                                             UpperChar(body[1]), UpperChar(body[1]),
                                             UpperChar(body[2]), UpperChar(body[2])]))
  {
    if |body| == 3 {
      var doubled := DoubleEach(body);
      assert AllHex(doubled) <==> AllHex(body) by {
        if AllHex(doubled) {
          assert forall i :: 0 <= i < 3 ==> body[i] == doubled[2 * i];
        }
      }
      assert "#" + Upper(doubled) == ['#', UpperChar(body[0]), UpperChar(body[0]),
                                           UpperChar(body[1]), UpperChar(body[1]),
                                           UpperChar(body[2]), UpperChar(body[2])];
    }
  }

  /**
   * Which inputs are accepted: exactly those whose trimmed, `#`-stripped body
   * is six hex digits, or three hex digits that are then doubled.
   */
  lemma NormalizeHexAccepts(value: string)
    ensures var body := StripHash(Trim(value));
      && (NormalizeHex(value).Some? <==> (|body| == 6 || |body| == 3) && AllHex(body))
      && (|body| == 6 && AllHex(body) ==> NormalizeHex(value) == Some("#" + Upper(body)))
      && (|body| == 3 && AllHex(body) ==> NormalizeHex(value) == Some("#" + Upper(DoubleEach(body))))
  {
    var body := StripHash(Trim(value));
    NormalizeBodyAccepts(body);
  }

  /** Three digits are doubled and upper-cased. */
  lemma NormalizeHexExpandsShortForm(value: string)
    requires StripHash(Trim(value)) == "abc"
    ensures NormalizeHex(value) == Some("#AABBCC")
  {
    NormalizeBodyAccepts("abc");
  }

  /** Every character is one `trim` removes. */
  predicate AllWhitespace(s: string) {
    forall i :: 0 <= i < |s| ==> IsWhitespace(s[i])
  }

  /** Leading white space is skipped whatever follows it. */
  lemma {:induction false} TrimStartSkips(pre: string, s: string)
    requires AllWhitespace(pre)
    ensures TrimStart(pre + s) == TrimStart(s)
    decreases |pre|
  {
    if pre == [] {
      assert pre + s == s;
    } else {
      assert (pre + s)[0] == pre[0];
      assert (pre + s)[1..] == pre[1..] + s;
      assert AllWhitespace(pre[1..]) by {
        assert forall i :: 0 <= i < |pre| - 1 ==> pre[1..][i] == pre[i + 1];
      }
      TrimStartSkips(pre[1..], s);
    }
  }

  /** Trailing white space is dropped whatever precedes it. */
  lemma {:induction false} TrimEndSkips(s: string, post: string)
    requires AllWhitespace(post)
    ensures TrimEnd(s + post) == TrimEnd(s)
    decreases |post|
  {
    if post == [] {
      assert s + post == s;
    } else {
      var n := |post|;
      assert (s + post)[|s + post| - 1] == post[n - 1];
      assert (s + post)[..|s + post| - 1] == s + post[..n - 1];
      assert AllWhitespace(post[..n - 1]) by {
        assert forall i :: 0 <= i < n - 1 ==> post[..n - 1][i] == post[i];
      }
      TrimEndSkips(s, post[..n - 1]);
    }
  }

  /** Trimming ignores white space added around the input. */
  lemma TrimIgnoresWhitespace(pre: string, core: string, post: string)
    requires AllWhitespace(pre) && AllWhitespace(post)
    ensures Trim(pre + core + post) == Trim(core)
  {
    var v := pre + core + post;
    assert v == pre + (core + post);
    TrimStartSkips(pre, core + post);
    var t := TrimStart(core + post);
    assert TrimStart(v) == t;
    TrimStartOfConcat(core, post);
    if TrimStart(core) == [] {
      assert t == [];
    } else {
      assert t == TrimStart(core) + post;
      TrimEndSkips(TrimStart(core), post);
    }
  }

  /** The result depends on the input only through its trimmed form. */
  lemma NormalizeHexOfTrim(a: string, b: string)
    requires Trim(a) == Trim(b)
    ensures NormalizeHex(a) == NormalizeHex(b)
  {
  }

  /** White space around the input never changes the result. */
  lemma NormalizeHexIgnoresWhitespace(pre: string, core: string, post: string)
    requires AllWhitespace(pre) && AllWhitespace(post)
    ensures NormalizeHex(pre + core + post) == NormalizeHex(core)
  {
    TrimIgnoresWhitespace(pre, core, post);
    NormalizeHexOfTrim(pre + core + post, core);
  }

  /** Appending white space to a string appends it to the trimmed string, unless nothing but white space is left. */
  lemma {:induction false} TrimStartOfConcat(s: string, post: string)
    requires AllWhitespace(post)
    ensures TrimStart(s) != [] ==> TrimStart(s + post) == TrimStart(s) + post
    ensures TrimStart(s) == [] ==> TrimStart(s + post) == []
    decreases |s|
  {
    if s == [] {
      TrimStartSkips(post, []);
      assert post + [] == post && s + post == post;
    } else if IsWhitespace(s[0]) {
      assert (s + post)[1..] == s[1..] + post;
      TrimStartOfConcat(s[1..], post);
    }
  }

  /** One leading `#` is optional: with or without it the input normalises alike. */
  lemma NormalizeHexOptionalHash(core: string)
    requires core != [] && core[0] != '#' && !IsWhitespace(core[0]) && !IsWhitespace(core[|core| - 1])
    ensures NormalizeHex("#" + core) == NormalizeHex(core)
  {
    var h := "#" + core;
    assert h[|h| - 1] == core[|core| - 1];
    assert Trim(h) == h;
    assert StripHash(h) == core;
  }

  /** Only one `#` is dropped: a body that still starts with `#` is refused. */
  lemma NormalizeHexStripsOneHash(value: string)
    requires var body := StripHash(Trim(value)); |body| > 0 && body[0] == '#'
    ensures NormalizeHex(value) == None
  {
    var body := StripHash(Trim(value));
    assert !IsHexDigit(body[0]);
    NormalizeBodyAccepts(body);
  }

  /** A four-digit body is neither expanded nor accepted. */
  lemma NormalizeHexKeepsLongForm(value: string)
    requires |StripHash(Trim(value))| == 4
    ensures NormalizeHex(value) == None
  {
    NormalizeBodyAccepts(StripHash(Trim(value)));
  }

  /** A six-character body with a non-hex character is refused. */
  lemma NormalizeHexRejectsNonHex(value: string)
    requires var body := StripHash(Trim(value)); |body| == 6 && !AllHex(body)
    ensures NormalizeHex(value) == None
  {
    NormalizeBodyAccepts(StripHash(Trim(value)));
  }

  /** Upper-casing leaves upper-case hex digits alone. */
  lemma UpperOfUpperHex(s: string)
    requires forall i :: 0 <= i < |s| ==> IsUpperHexDigit(s[i])
    ensures Upper(s) == s
  {
  }

  /** Without white space at either end only the `#` is dropped before the body is checked. */
  lemma NormalizeHexOfPlain(s: string)
    requires |s| > 0 && !IsWhitespace(s[0]) && !IsWhitespace(s[|s| - 1])
    ensures NormalizeHex(s) == NormalizeBody(StripHash(s))
  {
    assert Trim(s) == s;
  }

  /** A string already in normal form is accepted unchanged. */
  lemma NormalHexIsFixed(h: string)
    requires IsNormalHex(h)
    ensures NormalizeHex(h) == Some(h)
  {
    var body := h[1..];
    assert NormalizeHex(h) == NormalizeBody(body) by {
      assert !IsWhitespace(h[0]) && !IsWhitespace(h[6]);
      NormalizeHexOfPlain(h);
    }
    assert NormalizeBody(body) == Some(h) by {
      assert forall i :: 0 <= i < |body| ==> body[i] == h[i + 1];
      NormalizeBodyAccepts(body);
      UpperOfUpperHex(body);
      assert "#" + body == h;
    }
  }

  /** A normalised colour normalises to itself. */
  lemma NormalizeHexIdempotent(value: string)
    requires NormalizeHex(value).Some?
    ensures NormalizeHex(NormalizeHex(value).value) == NormalizeHex(value)
  {
    NormalHexIsFixed(NormalizeHex(value).value);
  }

  // ---------------------------------------------------------------------------
  // The edited layer

  /** `selectedLayerId`: the id when exactly one layer is selected, otherwise none. */
  function SelectedLayerId(selection: seq<string>): (r: Option<string>)
    ensures r.Some? <==> |selection| == 1
    ensures r.Some? ==> selection == [r.value]
  {
    if |selection| == 1 then Some(selection[0]) else None
  }

  /** JavaScript truthiness of the selected id: absent and the empty string are both falsy. */
  predicate Truthy(id: Option<string>) {
    id.Some? && id.value != ""
  }

  // ---------------------------------------------------------------------------
  // updateLayer

  /** `DEFAULT_SHADOW`: disabled, offset (0, 6), blur 18, black at 24 %. */
  const DefaultShadow: LayerShadow := LayerShadow(false, 0.0, 6.0, 18.0, Color(0.0, 0.0, 0.0), 24.0)

  /** A `Partial<LayerShadow>`. */
  datatype ShadowPatch = ShadowPatch(
    enabled: Option<bool>,
    x: Option<real>,
    y: Option<real>,
    blur: Option<real>,
    color: Option<Color>,
    opacity: Option<real>)

  /** `LayerUpdates`: what the design panel asks to change; colours arrive as hex text. */
  datatype LayerUpdates = LayerUpdates(
    x: Option<real>,
    y: Option<real>,
    width: Option<real>,
    height: Option<real>,
    rotation: Option<real>,
    opacity: Option<real>,
    cornerRadius: Option<real>,
    clipContent: Option<bool>,
    fill: Option<string>,
    fillOpacity: Option<real>,
    stroke: Option<string>,
    strokeOpacity: Option<real>,
    strokeWidth: Option<real>,
    strokeAlign: Option<StrokeAlign>,
    fontSize: Option<real>,
    fontWeight: Option<real>,
    fontFamily: Option<string>,
    text: Option<string>,
    shadow: Option<ShadowPatch>)

  const NoUpdates: LayerUpdates := LayerUpdates(
    None, None, None, None, None, None, None, None, None, None,
    None, None, None, None, None, None, None, None, None)

  /** The `patch` record handed to the live layer: a key is either absent or carries its final value. */
  datatype LayerPatch = LayerPatch(
    x: Option<real>,
    y: Option<real>,
    width: Option<real>,
    height: Option<real>,
    rotation: Option<real>,
    opacity: Option<real>,
    cornerRadius: Option<real>,
    clipContent: Option<bool>,
    fill: Option<Color>,
    fillOpacity: Option<real>,
    stroke: Option<Color>,
    strokeOpacity: Option<real>,
    strokeWidth: Option<real>,
    strokeAlign: Option<StrokeAlign>,
    fontSize: Option<real>,
    fontWeight: Option<real>,
    fontFamily: Option<string>,
    text: Option<string>,
    shadow: Option<LayerShadow>)

  const EmptyPatch: LayerPatch := LayerPatch(
    None, None, None, None, None, None, None, None, None, None,
    None, None, None, None, None, None, None, None, None)

  /** `{ ...base, ...patch }` over a shadow: keys in the patch win, the rest are kept. */
  function MergeShadow(base: LayerShadow, patch: ShadowPatch): (r: LayerShadow)
    ensures r.enabled == patch.enabled.GetOr(base.enabled)
    ensures r.x == patch.x.GetOr(base.x) && r.y == patch.y.GetOr(base.y)
    ensures r.blur == patch.blur.GetOr(base.blur) && r.color == patch.color.GetOr(base.color)
    ensures r.opacity == patch.opacity.GetOr(base.opacity)
  {
    LayerShadow(
      patch.enabled.GetOr(base.enabled),
      patch.x.GetOr(base.x),
      patch.y.GetOr(base.y),
      patch.blur.GetOr(base.blur),
      patch.color.GetOr(base.color),
      patch.opacity.GetOr(base.opacity))
  }

  /**
   * `raw` was clamped into `out`: present exactly when `raw` is, within the
   * bounds, unchanged when already inside them, and at the violated bound otherwise.
   */
  predicate ClampedFrom(out: Option<real>, raw: Option<real>, min: Option<real>, max: Option<real>) {
    && (out.Some? <==> raw.Some?)
    && (out.Some? ==>
          && (min.Some? ==> min.value <= out.value)
          && (max.Some? ==> out.value <= max.value)
          && (InBounds(raw.value, min, max) ==> out.value == raw.value)
          && (min.Some? && raw.value < min.value ==> out.value == min.value)
          && (max.Some? && max.value < raw.value ==> out.value == max.value))
  }

  /** A hex update parsed into a colour; an update that does not normalise is dropped. */
  function ParsedColor(hex: Option<string>, hexToRgb: string -> Color): (r: Option<Color>)
    ensures r.Some? <==> hex.Some? && NormalizeHex(hex.value).Some?
    ensures r.Some? ==> r.value == hexToRgb(NormalizeHex(hex.value).value)
  {
    if hex.Some? then
      match NormalizeHex(hex.value)
      case Some(normalized) => Some(hexToRgb(normalized))
      case None => None
    else None
  }

  /** `Math.max(min, raw)` for a key that is present. */
  function AtLeast(raw: Option<real>, min: real): Option<real> {
    if raw.Some? then Some(Max(min, raw.value)) else None
  }

  /** `clamp(raw, min, max)` for a key that is present. */
  function Between(raw: Option<real>, min: real, max: real): Option<real> {
    if raw.Some? then Some(Clamp(raw.value, Some(min), Some(max))) else None
  }

  /** The patch `updateLayer` builds for `current` from `updates`. */
  function PatchFor(current: Layer, updates: LayerUpdates, hexToRgb: string -> Color): (p: LayerPatch)
    // passed through unchanged
    ensures p.x == updates.x && p.y == updates.y && p.rotation == updates.rotation
    ensures p.clipContent == updates.clipContent && p.strokeAlign == updates.strokeAlign
    ensures p.fontFamily == updates.fontFamily && p.text == updates.text
    // sizes at least 1
    ensures ClampedFrom(p.width, updates.width, Some(1.0), None)
    ensures ClampedFrom(p.height, updates.height, Some(1.0), None)
    ensures ClampedFrom(p.fontSize, updates.fontSize, Some(1.0), None)
    // radii and stroke widths at least 0
    ensures ClampedFrom(p.cornerRadius, updates.cornerRadius, Some(0.0), None)
    ensures ClampedFrom(p.strokeWidth, updates.strokeWidth, Some(0.0), None)
    // percentages in [0, 100], weights in [100, 900]
    ensures ClampedFrom(p.opacity, updates.opacity, Some(0.0), Some(100.0))
    ensures ClampedFrom(p.fillOpacity, updates.fillOpacity, Some(0.0), Some(100.0))
    ensures ClampedFrom(p.strokeOpacity, updates.strokeOpacity, Some(0.0), Some(100.0))
    ensures ClampedFrom(p.fontWeight, updates.fontWeight, Some(100.0), Some(900.0))
    // colours only when the hex text normalises
    ensures p.fill == ParsedColor(updates.fill, hexToRgb)
    ensures p.stroke == ParsedColor(updates.stroke, hexToRgb)
    // the shadow update merges over the current shadow, or the default one
    ensures p.shadow.Some? <==> updates.shadow.Some?
    ensures p.shadow.Some? ==> p.shadow.value == MergeShadow(current.shadow.GetOr(DefaultShadow), updates.shadow.value)
    ensures updates == NoUpdates ==> p == EmptyPatch
  {
    LayerPatch(
      updates.x,
      updates.y,
      AtLeast(updates.width, 1.0),
      AtLeast(updates.height, 1.0),
      updates.rotation,
      Between(updates.opacity, 0.0, 100.0),
      AtLeast(updates.cornerRadius, 0.0),
      updates.clipContent,
      ParsedColor(updates.fill, hexToRgb),
      Between(updates.fillOpacity, 0.0, 100.0),
      ParsedColor(updates.stroke, hexToRgb),
      Between(updates.strokeOpacity, 0.0, 100.0),
      AtLeast(updates.strokeWidth, 0.0),
      updates.strokeAlign,
      AtLeast(updates.fontSize, 1.0),
      Between(updates.fontWeight, 100.0, 900.0),
      updates.fontFamily,
      updates.text,
      if updates.shadow.Some? then Some(MergeShadow(current.shadow.GetOr(DefaultShadow), updates.shadow.value)) else None)
  }

  /** A key of the patch kept at or above `min` (`Math.max(min, value)`). */
  method AtLeastUpdate(raw: Option<real>, min: real) returns (out: Option<real>)
    ensures out == AtLeast(raw, min)
  {
    out := None;
    if raw.Some? { out := Some(Max(min, raw.value)); }
  }

  /** A key of the patch clamped into `[min, max]`. */
  method BetweenUpdate(raw: Option<real>, min: real, max: real) returns (out: Option<real>)
    ensures out == Between(raw, min, max)
  {
    out := None;
    if raw.Some? { out := Some(Clamp(raw.value, Some(min), Some(max))); }
  }

  /** A colour key of the patch: set only when the hex text normalises. */
  method ParseColorUpdate(hex: Option<string>, hexToRgb: string -> Color) returns (color: Option<Color>)
    ensures color == ParsedColor(hex, hexToRgb)
  {
    color := None;
    if hex.Some? {
      var normalized := NormalizeHex(hex.value);
      if normalized.Some? { color := Some(hexToRgb(normalized.value)); }
    }
  }

  /** Builds the patch key by key, as the mutation does. */
  method BuildPatch(current: Layer, updates: LayerUpdates, hexToRgb: string -> Color) returns (patch: LayerPatch)
    ensures patch == PatchFor(current, updates, hexToRgb)
  {
    // keys copied as given
    var x, y, rotation, clipContent := updates.x, updates.y, updates.rotation, updates.clipContent;
    var strokeAlign, fontFamily, text := updates.strokeAlign, updates.fontFamily, updates.text;
    // sizes at least 1, radii and stroke widths at least 0
    var width := AtLeastUpdate(updates.width, 1.0);
    var height := AtLeastUpdate(updates.height, 1.0);
    var cornerRadius := AtLeastUpdate(updates.cornerRadius, 0.0);
    var strokeWidth := AtLeastUpdate(updates.strokeWidth, 0.0);
    var fontSize := AtLeastUpdate(updates.fontSize, 1.0);
    // percentages and weights clamped
    var opacity := BetweenUpdate(updates.opacity, 0.0, 100.0);
    var fillOpacity := BetweenUpdate(updates.fillOpacity, 0.0, 100.0);
    var strokeOpacity := BetweenUpdate(updates.strokeOpacity, 0.0, 100.0);
    var fontWeight := BetweenUpdate(updates.fontWeight, 100.0, 900.0);
    // colours parsed
    var fill := ParseColorUpdate(updates.fill, hexToRgb);
    var stroke := ParseColorUpdate(updates.stroke, hexToRgb);
    // shadow merged over the current one
    var shadow := None;
    if updates.shadow.Some? {
      shadow := Some(MergeShadow(current.shadow.GetOr(DefaultShadow), updates.shadow.value));
    }
    patch := LayerPatch(x, y, width, height, rotation, opacity, cornerRadius, clipContent,
                        fill, fillOpacity, stroke, strokeOpacity, strokeWidth, strokeAlign,
                        fontSize, fontWeight, fontFamily, text, shadow);
  }

  /** `liveLayer.update(patch)`: every key of the patch is written, every other field is kept. */
  function ApplyPatch(l: Layer, p: LayerPatch): Layer {
    l.(x := p.x.GetOr(l.x),
       y := p.y.GetOr(l.y),
       width := p.width.GetOr(l.width),
       height := p.height.GetOr(l.height),
       rotation := if p.rotation.Some? then p.rotation else l.rotation,
       opacity := p.opacity.GetOr(l.opacity),
       cornerRadius := if p.cornerRadius.Some? then p.cornerRadius else l.cornerRadius,
       clipContent := if p.clipContent.Some? then p.clipContent else l.clipContent,
       fill := p.fill.GetOr(l.fill),
       fillOpacity := if p.fillOpacity.Some? then p.fillOpacity else l.fillOpacity,
       stroke := p.stroke.GetOr(l.stroke),
       strokeOpacity := if p.strokeOpacity.Some? then p.strokeOpacity else l.strokeOpacity,
       strokeWidth := if p.strokeWidth.Some? then p.strokeWidth else l.strokeWidth,
       strokeAlign := if p.strokeAlign.Some? then p.strokeAlign else l.strokeAlign,
       fontSize := if p.fontSize.Some? then p.fontSize else l.fontSize,
       fontWeight := if p.fontWeight.Some? then p.fontWeight else l.fontWeight,
       fontFamily := if p.fontFamily.Some? then p.fontFamily else l.fontFamily,
       text := if p.text.Some? then p.text else l.text,
       shadow := if p.shadow.Some? then p.shadow else l.shadow)
  }

  /** The layer after `updateLayer` applied `updates` to it. */
  function UpdatedLayer(l: Layer, updates: LayerUpdates, hexToRgb: string -> Color): (r: Layer)
    // the variant is never patched, and the variant's required fields stay present
    ensures r.kind == l.kind && r.points == l.points
    ensures WellTyped(l) ==> WellTyped(r)
    // a field the update does not name keeps its value
    ensures updates.x.None? ==> r.x == l.x
    ensures updates.y.None? ==> r.y == l.y
    ensures updates.width.None? ==> r.width == l.width
    ensures updates.height.None? ==> r.height == l.height
    ensures updates.rotation.None? ==> r.rotation == l.rotation
    ensures updates.opacity.None? ==> r.opacity == l.opacity
    ensures updates.cornerRadius.None? ==> r.cornerRadius == l.cornerRadius
    ensures updates.clipContent.None? ==> r.clipContent == l.clipContent
    ensures updates.fillOpacity.None? ==> r.fillOpacity == l.fillOpacity
    ensures updates.strokeOpacity.None? ==> r.strokeOpacity == l.strokeOpacity
    ensures updates.strokeWidth.None? ==> r.strokeWidth == l.strokeWidth
    ensures updates.strokeAlign.None? ==> r.strokeAlign == l.strokeAlign
    ensures updates.fontSize.None? ==> r.fontSize == l.fontSize
    ensures updates.fontWeight.None? ==> r.fontWeight == l.fontWeight
    ensures updates.fontFamily.None? ==> r.fontFamily == l.fontFamily
    ensures updates.text.None? ==> r.text == l.text
    ensures updates.shadow.None? ==> r.shadow == l.shadow
    ensures updates == NoUpdates ==> r == l
    // colours change only to a colour that normalised
    ensures r.fill == (if ParsedColor(updates.fill, hexToRgb).Some? then ParsedColor(updates.fill, hexToRgb).value else l.fill)
    ensures r.stroke == (if ParsedColor(updates.stroke, hexToRgb).Some? then ParsedColor(updates.stroke, hexToRgb).value else l.stroke)
    // numeric fields the update names satisfy their bounds
    ensures updates.width.Some? ==> r.width >= 1.0
    ensures updates.height.Some? ==> r.height >= 1.0
    ensures updates.fontSize.Some? ==> r.fontSize.Some? && r.fontSize.value >= 1.0
    ensures updates.cornerRadius.Some? ==> r.cornerRadius.Some? && r.cornerRadius.value >= 0.0
    ensures updates.strokeWidth.Some? ==> r.strokeWidth.Some? && r.strokeWidth.value >= 0.0
    ensures updates.opacity.Some? ==> 0.0 <= r.opacity <= 100.0
    ensures updates.fillOpacity.Some? ==> r.fillOpacity.Some? && 0.0 <= r.fillOpacity.value <= 100.0
    ensures updates.strokeOpacity.Some? ==> r.strokeOpacity.Some? && 0.0 <= r.strokeOpacity.value <= 100.0
    ensures updates.fontWeight.Some? ==> r.fontWeight.Some? && 100.0 <= r.fontWeight.value <= 900.0
    // the shadow update is merged over the current (or default) shadow
    ensures updates.shadow.Some? ==> r.shadow == Some(MergeShadow(l.shadow.GetOr(DefaultShadow), updates.shadow.value))
  {
    ApplyPatch(l, PatchFor(l, updates, hexToRgb))
  }

  /**
   * Every key the update names is written onto the layer: pass-through keys
   * with the given value, numeric keys with the given value clamped into range.
   */
  lemma UpdatedLayerWrites(l: Layer, updates: LayerUpdates, hexToRgb: string -> Color)
    // pass-through keys
    ensures updates.x.Some? ==> UpdatedLayer(l, updates, hexToRgb).x == updates.x.value
    ensures updates.y.Some? ==> UpdatedLayer(l, updates, hexToRgb).y == updates.y.value
    ensures updates.rotation.Some? ==> UpdatedLayer(l, updates, hexToRgb).rotation == updates.rotation
    ensures updates.clipContent.Some? ==> UpdatedLayer(l, updates, hexToRgb).clipContent == updates.clipContent
    ensures updates.strokeAlign.Some? ==> UpdatedLayer(l, updates, hexToRgb).strokeAlign == updates.strokeAlign
    ensures updates.fontFamily.Some? ==> UpdatedLayer(l, updates, hexToRgb).fontFamily == updates.fontFamily
    ensures updates.text.Some? ==> UpdatedLayer(l, updates, hexToRgb).text == updates.text
    // numeric keys with the given value clamped into its range
    ensures ClampedFrom(if updates.width.Some? then Some(UpdatedLayer(l, updates, hexToRgb).width) else None, updates.width, Some(1.0), None)
    ensures ClampedFrom(if updates.height.Some? then Some(UpdatedLayer(l, updates, hexToRgb).height) else None, updates.height, Some(1.0), None)
    ensures ClampedFrom(if updates.fontSize.Some? then UpdatedLayer(l, updates, hexToRgb).fontSize else None, updates.fontSize, Some(1.0), None)
    ensures ClampedFrom(if updates.cornerRadius.Some? then UpdatedLayer(l, updates, hexToRgb).cornerRadius else None, updates.cornerRadius, Some(0.0), None)
    ensures ClampedFrom(if updates.strokeWidth.Some? then UpdatedLayer(l, updates, hexToRgb).strokeWidth else None, updates.strokeWidth, Some(0.0), None)
    ensures ClampedFrom(if updates.opacity.Some? then Some(UpdatedLayer(l, updates, hexToRgb).opacity) else None, updates.opacity, Some(0.0), Some(100.0))
    ensures ClampedFrom(if updates.fillOpacity.Some? then UpdatedLayer(l, updates, hexToRgb).fillOpacity else None, updates.fillOpacity, Some(0.0), Some(100.0))
    ensures ClampedFrom(if updates.strokeOpacity.Some? then UpdatedLayer(l, updates, hexToRgb).strokeOpacity else None, updates.strokeOpacity, Some(0.0), Some(100.0))
    ensures ClampedFrom(if updates.fontWeight.Some? then UpdatedLayer(l, updates, hexToRgb).fontWeight else None, updates.fontWeight, Some(100.0), Some(900.0))
  {
    var p := PatchFor(l, updates, hexToRgb);
    assert UpdatedLayer(l, updates, hexToRgb) == ApplyPatch(l, p);
  }

  /** Committing the same panel edit twice is committing it once. */
  lemma UpdatedLayerIdempotent(l: Layer, updates: LayerUpdates, hexToRgb: string -> Color)
    ensures UpdatedLayer(UpdatedLayer(l, updates, hexToRgb), updates, hexToRgb) == UpdatedLayer(l, updates, hexToRgb)
  {
    var r := UpdatedLayer(l, updates, hexToRgb);
    assert PatchFor(r, updates, hexToRgb) == PatchFor(l, updates, hexToRgb);
  }

  /** The document after `updateLayer`: the selected layer updated, or the document untouched. */
  function UpdatedRoot(root: RootStorage, selectedLayerId: Option<string>, updates: LayerUpdates, hexToRgb: string -> Color): (r: RootStorage)
    ensures !Truthy(selectedLayerId) || selectedLayerId.value !in root.layers ==> r == root
    ensures r.roomColor == root.roomColor && r.layerIds == root.layerIds && r.layers.Keys == root.layers.Keys
    ensures forall id :: id in root.layers && Some(id) != selectedLayerId ==> r.layers[id] == root.layers[id]
    ensures Truthy(selectedLayerId) && selectedLayerId.value in root.layers ==>
      r.layers[selectedLayerId.value] == UpdatedLayer(root.layers[selectedLayerId.value], updates, hexToRgb)
    ensures InSync(root) ==> InSync(r)
  {
    if !Truthy(selectedLayerId) then root
    else
      var id := selectedLayerId.value;
      if id !in root.layers then root
      else root.(layers := root.layers[id := UpdatedLayer(root.layers[id], updates, hexToRgb)])
  }

  /** Applying the same update to the document twice is applying it once. */
  lemma UpdatedRootIdempotent(root: RootStorage, selectedLayerId: Option<string>, updates: LayerUpdates, hexToRgb: string -> Color)
    ensures UpdatedRoot(UpdatedRoot(root, selectedLayerId, updates, hexToRgb), selectedLayerId, updates, hexToRgb)
         == UpdatedRoot(root, selectedLayerId, updates, hexToRgb)
  {
    if Truthy(selectedLayerId) && selectedLayerId.value in root.layers {
      var id := selectedLayerId.value;
      UpdatedLayerIdempotent(root.layers[id], updates, hexToRgb);
      var once := UpdatedRoot(root, selectedLayerId, updates, hexToRgb);
      assert once.layers[id := UpdatedLayer(once.layers[id], updates, hexToRgb)] == once.layers;
    }
  }

  /** The mutation `updateLayer` submits for the selected id captured at render time. */
  function UpdateLayerMutation(st: LocalState, selectedLayerId: Option<string>, updates: LayerUpdates, hexToRgb: string -> Color): Mutation {
    Mutation(UpdatedRoot(st.root, selectedLayerId, updates, hexToRgb), st.presence, false)
  }

  /**
   * Re-running the same edit records nothing and notifies nobody: the second
   * run finds the document already as the edit leaves it.
   */
  lemma UpdateLayerTwiceIsOnce(st: LocalState, selectedLayerId: Option<string>, updates: LayerUpdates, hexToRgb: string -> Color)
    ensures var once := AfterMutation(st, UpdateLayerMutation(st, selectedLayerId, updates, hexToRgb));
      AfterMutation(once, UpdateLayerMutation(once, selectedLayerId, updates, hexToRgb)) == once
  {
    UpdatedRootIdempotent(st.root, selectedLayerId, updates, hexToRgb);
  }

  /**
   * Outside a pause, an edit that changes the selected layer is one history
   * entry: one undo brings back the document from before it, and redo is gone.
   */
  lemma UpdateLayerIsOneUndoStep(st: LocalState, selectedLayerId: Option<string>, updates: LayerUpdates, hexToRgb: string -> Color)
    requires st.pauseDepth == 0
    requires UpdatedRoot(st.root, selectedLayerId, updates, hexToRgb) != st.root
    ensures var after := AfterMutation(st, UpdateLayerMutation(st, selectedLayerId, updates, hexToRgb));
      && after.past == st.past + [SnapshotOf(st)] && after.future == []
      && AfterUndo(after).root == st.root && AfterUndo(after).presence == st.presence
  {
  }

  /**
   * `updateLayer` as a mutation of `room`: `selectedLayerId` is the value the
   * panel computed at render time; without one, or for a missing layer, the
   * mutation changes nothing and so records nothing.
   */
  method UpdateLayer(room: Room, selectedLayerId: Option<string>, updates: LayerUpdates, hexToRgb: string -> Color)
    modifies room
    ensures old(room.Valid()) ==> room.Valid()
    ensures room.State() == AfterMutation(old(room.State()), UpdateLayerMutation(old(room.State()), selectedLayerId, updates, hexToRgb))
    ensures !Truthy(selectedLayerId) || selectedLayerId.value !in old(room.root).layers ==> room.State() == old(room.State())
  {
    var next := room.root;
    if Truthy(selectedLayerId) && selectedLayerId.value in room.root.layers {
      var id := selectedLayerId.value;
      var current := room.root.layers[id];
      var patch := BuildPatch(current, updates, hexToRgb);
      next := next.(layers := next.layers[id := ApplyPatch(current, patch)]);
    }
    room.RunMutation(Mutation(next, room.presence, false));
  }
}
