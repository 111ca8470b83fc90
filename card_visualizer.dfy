/**
 * The member card component (src/components/MemberCardVisualizer.tsx): colour
 * and gradient resolution, the size table, the contact handlers that also
 * notify the parent, and the PDF file name.
 */
module CardVisualizer {
  import opened Wrappers
  import opened JsValues
  import opened Types
  import opened PublicCard

  /** `prop || merchantValue || fallback`. */
  function ResolveColour(prop: Option<string>, merchantValue: Option<string>, fallback: string): (c: string)
    ensures TruthyString(prop) ==> c == prop.value
    ensures !TruthyString(prop) && TruthyString(merchantValue) ==> c == merchantValue.value
    ensures !TruthyString(prop) && !TruthyString(merchantValue) ==> c == fallback
  {
    OrElse(prop, OrElse(merchantValue, fallback))
  }

  function CardPrimary(prop: Option<string>, m: Merchant): string {
    ResolveColour(prop, m.primaryColor, DefaultPrimary)
  }

  function CardSecondary(prop: Option<string>, m: Merchant): string {
    ResolveColour(prop, m.secondaryColor, DefaultSecondary)
  }

  /** Without a colour prop the component shows the same colours as the public page. */
  lemma SameColoursAsPublicPage(m: Merchant)
    ensures CardPrimary(None, m) == PrimaryColour(m)
    ensures CardSecondary(None, m) == SecondaryColour(m)
  {
  }

  /** `useGradient`: the prop if given (even false), else the merchant's if given, else true. */
  function ResolveGradient(prop: Option<bool>, m: Merchant): (g: bool)
    ensures prop.Some? ==> g == prop.value
    ensures prop.None? && m.useGradient.Some? ==> g == m.useGradient.value
    ensures prop.None? && m.useGradient.None? ==> g
  {
    if prop.Some? then prop.value else if m.useGradient.Some? then m.useGradient.value else true
  }

  /** The header's background. */
  datatype Background = Gradient(from: string, to: string) | Solid(colour: string)

  function HeaderBackground(useGradient: bool, primary: string, secondary: string): (b: Background)
    ensures b.Gradient? <==> useGradient
    ensures b.Gradient? ==> b.from == primary && b.to == secondary
    ensures b.Solid? ==> b.colour == primary
  {
    if useGradient then Gradient(primary, secondary) else Solid(primary)
  }

  datatype CardSize = Small | Medium | Large

  /** One row of `sizeStyles`, in pixels. */
  datatype SizeStyle = SizeStyle(cardWidth: nat, padding: nat, avatar: nat, titleFont: nat, textFont: nat, qrSize: nat)

  function StyleOf(size: CardSize): SizeStyle {
    match size
    case Small => SizeStyle(280, 12, 50, 16, 12, 80)
    case Medium => SizeStyle(320, 16, 70, 20, 14, 100)
    case Large => SizeStyle(380, 24, 90, 24, 16, 140)
  }

  function Rank(size: CardSize): nat {
    match size
    case Small => 0
    case Medium => 1
    case Large => 2
  }

  /** A larger card is larger in every dimension, and its QR code fits inside it. */
  lemma StylesGrowWithSize(a: CardSize, b: CardSize)
    requires Rank(a) < Rank(b)
    ensures StyleOf(a).cardWidth < StyleOf(b).cardWidth && StyleOf(a).padding < StyleOf(b).padding
    ensures StyleOf(a).avatar < StyleOf(b).avatar && StyleOf(a).qrSize < StyleOf(b).qrSize
    ensures StyleOf(a).titleFont < StyleOf(b).titleFont && StyleOf(a).textFont < StyleOf(b).textFont
    ensures StyleOf(b).qrSize + 2 * StyleOf(b).padding < StyleOf(b).cardWidth
  {
  }

  /** What pressing a contact button does: start a navigation, then call the parent's callback. */
  datatype Effect = Go(target: Navigation) | NotifyParent

  datatype Contact = Call | WhatsApp | Email | Maps

  /** The navigation of a contact button, the same rule as the public page. */
  function ContactTarget(c: Contact, m: Merchant): Option<Navigation> {
    match c
    case Call => CallTarget(Some(m))
    case WhatsApp => WhatsAppTarget(Some(m))
    case Email => EmailTarget(Some(m))
    case Maps => MapsTarget(Some(m))
  }

  /** The handlers: the navigation when there is a target, and the callback whenever one is given. */
  function HandleContact(c: Contact, m: Merchant, hasCallback: bool): (effects: seq<Effect>)
    ensures hasCallback <==> |effects| > 0 && effects[|effects| - 1] == NotifyParent
    ensures forall t :: Go(t) in effects <==> ContactTarget(c, m) == Some(t)
    ensures |effects| <= 2
  {
    var nav := ContactTarget(c, m);
    (if nav.Some? then [Go(nav.value)] else []) + (if hasCallback then [NotifyParent] else [])
  }

  /** JavaScript's `\s`: the ASCII spaces and the Unicode space separators and line terminators. */
  predicate IsSpace(c: char) {
    var n := c as int;
    (0x09 <= n <= 0x0D) || n == 0x20 || n == 0xA0 || n == 0x1680 || (0x2000 <= n <= 0x200A)
    || n == 0x2028 || n == 0x2029 || n == 0x202F || n == 0x205F || n == 0x3000 || n == 0xFEFF
  }

  /** The length of the leading run of whitespace. */
  function SpaceRun(s: string): (k: nat)
    ensures k <= |s|
    ensures forall i :: 0 <= i < k ==> IsSpace(s[i])
    ensures k < |s| ==> !IsSpace(s[k])
    decreases |s|
  {
    if |s| > 0 && IsSpace(s[0]) then
      var k := 1 + SpaceRun(s[1..]);
      assert forall i :: 1 <= i < k ==> s[i] == s[1..][i - 1];
      k
    else 0
  }

  /** `s.replace(/\s+/g, '_')`: every maximal run of whitespace becomes one underscore. */
  function CollapseSpaces(s: string): (r: string)
    ensures forall i :: 0 <= i < |r| ==> !IsSpace(r[i])
    ensures |r| <= |s|
    decreases |s|
  {
    if |s| == 0 then ""
    else if IsSpace(s[0]) then "_" + CollapseSpaces(s[SpaceRun(s)..])
    else [s[0]] + CollapseSpaces(s[1..])
  }

  /** A string without whitespace is left as it is. */
  lemma {:induction false} CollapseKeepsPlainText(s: string)
    requires forall i :: 0 <= i < |s| ==> !IsSpace(s[i])
    ensures CollapseSpaces(s) == s
    decreases |s|
  {
    if |s| > 0 {
      CollapseKeepsPlainText(s[1..]);
    }
  }

  /** Collapsing twice is collapsing once. */
  lemma CollapseIdempotent(s: string)
    ensures CollapseSpaces(CollapseSpaces(s)) == CollapseSpaces(s)
  {
    CollapseKeepsPlainText(CollapseSpaces(s));
  }

  /** The text characters of a string: everything except whitespace and underscores. */
  function TextChars(s: string): string
    decreases |s|
  {
    if |s| == 0 then ""
    else (if IsSpace(s[0]) || s[0] == '_' then "" else [s[0]]) + TextChars(s[1..])
  }

  lemma {:induction false} TextCharsAppend(a: string, b: string)
    ensures TextChars(a + b) == TextChars(a) + TextChars(b)
    decreases |a|
  {
    if |a| == 0 {
      assert a + b == b;
    } else {
      assert (a + b)[1..] == a[1..] + b;
      TextCharsAppend(a[1..], b);
    }
  }

  lemma {:induction false} TextCharsSkipsRun(s: string, k: nat)
    requires k <= |s| && forall i :: 0 <= i < k ==> IsSpace(s[i])
    ensures TextChars(s) == TextChars(s[k..])
    decreases k
  {
    if k > 0 {
      TextCharsSkipsRun(s[1..], k - 1);
      assert s[1..][k - 1..] == s[k..];
    }
  }

  /** A string with neither whitespace nor `_` is all text. */
  lemma {:induction false} TextCharsPlain(s: string)
    requires forall i :: 0 <= i < |s| ==> !IsSpace(s[i]) && s[i] != '_'
    ensures TextChars(s) == s
    decreases |s|
  {
    if |s| > 0 {
      TextCharsPlain(s[1..]);
    }
  }

  /** Collapsing only replaces whitespace: every other character survives, in order. */
  lemma {:induction false} CollapseKeepsText(s: string)
    ensures TextChars(CollapseSpaces(s)) == TextChars(s)
    decreases |s|
  {
    if |s| > 0 {
      if IsSpace(s[0]) {
        var k := SpaceRun(s);
        CollapseKeepsText(s[k..]);
        TextCharsAppend("_", CollapseSpaces(s[k..]));
        TextCharsSkipsRun(s, k);
      } else {
        CollapseKeepsText(s[1..]);
        TextCharsAppend([s[0]], CollapseSpaces(s[1..]));
      }
    }
  }

  /** Every character of `w` is whitespace. */
  predicate AllSpace(w: string) {
    forall i :: 0 <= i < |w| ==> IsSpace(w[i])
  }

  /** `a` cannot extend a whitespace run past its end: it is empty or ends in a non-space. */
  predicate EndsOutsideRun(a: string) {
    |a| == 0 || !IsSpace(a[|a| - 1])
  }

  /** `b` cannot extend a whitespace run before it: it is empty or starts with a non-space. */
  predicate StartsOutsideRun(b: string) {
    |b| == 0 || !IsSpace(b[0])
  }

  /** A leading run that ends inside `a` is not lengthened by what follows `a`. */
  lemma {:induction false} SpaceRunStaysInside(a: string, t: string)
    requires |a| > 0 && !IsSpace(a[|a| - 1])
    ensures SpaceRun(a + t) == SpaceRun(a) < |a|
    decreases |a|
  {
    if IsSpace(a[0]) {
      assert (a + t)[1..] == a[1..] + t;
      SpaceRunStaysInside(a[1..], t);
    }
  }

  /** A whole whitespace run `w` followed by a non-space is one leading run. */
  lemma {:induction false} SpaceRunWhole(w: string, b: string)
    requires AllSpace(w) && StartsOutsideRun(b)
    ensures SpaceRun(w + b) == |w|
    decreases |w|
  {
    if |w| > 0 {
      assert (w + b)[1..] == w[1..] + b;
      SpaceRunWhole(w[1..], b);
    }
  }

  /** Cutting a string after a non-space character does not cut a run, so collapsing works piece by piece. */
  lemma {:induction false} CollapseSplit(a: string, t: string)
    requires EndsOutsideRun(a)
    ensures CollapseSpaces(a + t) == CollapseSpaces(a) + CollapseSpaces(t)
    decreases |a|
  {
    if |a| == 0 {
      assert a + t == t;
    } else if IsSpace(a[0]) {
      var k := SpaceRun(a);
      SpaceRunStaysInside(a, t);
      assert (a + t)[k..] == a[k..] + t;
      CollapseSplit(a[k..], t);
    } else {
      assert (a + t)[1..] == a[1..] + t;
      CollapseSplit(a[1..], t);
    }
  }

  /**
   * The `/\s+/g` rule: a maximal whitespace run `w`, however long, becomes a
   * single `_`, and the text on either side is collapsed on its own.
   */
  lemma CollapseRun(a: string, w: string, b: string)
    requires |w| > 0 && AllSpace(w) && EndsOutsideRun(a) && StartsOutsideRun(b)
    ensures CollapseSpaces(a + w + b) == CollapseSpaces(a) + "_" + CollapseSpaces(b)
  {
    assert a + w + b == a + (w + b);
    CollapseSplit(a, w + b);
    SpaceRunWhole(w, b);
    assert (w + b)[|w|..] == b;
  }

  /** The PDF name: the business name with whitespace runs turned into `_`, then `_carte.pdf`. */
  function PdfFileName(businessName: string): (name: string)
    ensures |name| >= 10 && name[|name| - 10..] == "_carte.pdf"
    ensures forall i :: 0 <= i < |name| ==> !IsSpace(name[i])
  {
    CollapseSpaces(businessName) + "_carte.pdf"
  }

  /** The PDF name keeps every text character of the business name, in order, before `carte.pdf`. */
  lemma PdfFileNameKeepsText(businessName: string)
    ensures TextChars(PdfFileName(businessName)) == TextChars(businessName) + "carte.pdf"
  {
    CollapseKeepsText(businessName);
    var suffix := "_carte.pdf";
    assert suffix[1..] == "carte.pdf";
    UnderscoreThenText(CollapseSpaces(businessName), suffix);
  }

  /** Appending `_` and plain text adds exactly that text. */
  lemma UnderscoreThenText(s: string, suffix: string)
    requires |suffix| > 0 && suffix[0] == '_'
    requires forall i :: 1 <= i < |suffix| ==> !IsSpace(suffix[i]) && suffix[i] != '_'
    ensures TextChars(s + suffix) == TextChars(s) + suffix[1..]
  {
    TextCharsAppend(s, suffix);
    TextCharsPlain(suffix[1..]);
  }


  /** A name with a whitespace run between two words gives their collapsed forms joined by one `_`. */
  lemma PdfFileNameRun(a: string, w: string, b: string)
    requires |w| > 0 && AllSpace(w) && EndsOutsideRun(a) && StartsOutsideRun(b)
    ensures PdfFileName(a + w + b) == CollapseSpaces(a) + "_" + CollapseSpaces(b) + "_carte.pdf"
  {
    CollapseRun(a, w, b);
  }

  /** For example, "Chez  Awa" (two spaces) is saved as "Chez_Awa_carte.pdf". */
  lemma PdfFileNameExample(name: string)
    requires name == "Chez  Awa"
    ensures PdfFileName(name) == "Chez_Awa_carte.pdf"
  {
    var a, w, b := name[..4], name[4..6], name[6..];
    assert name == a + w + b;
    PdfFileNameRun(a, w, b);
    CollapseKeepsPlainText(a);
    CollapseKeepsPlainText(b);
  }

}
