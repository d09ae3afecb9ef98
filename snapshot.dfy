/**
 * The page snapshot (`getPageStructure` in src/background.js): a bounded
 * projection of the page's elements that is embedded in the prompt.
 */
module Snapshot {
  import opened Wrappers
  import opened Text

  /** The kinds of element the extension distinguishes by tag name. */
  datatype Tag = Anchor | ButtonTag | Heading(level: nat) | InputTag(inputType: string) | OtherTag

  /**
   * One element of the page, in document order. Absent attributes are
   * the empty string, which JavaScript's `||` treats like `undefined`.
   */
  datatype Element = Element(
    tag: Tag,
    text: string,        // textContent
    hasHref: bool,       // an `href` attribute is present
    href: string,        // the resolved `href` property
    role: string,        // the `role` attribute
    value: string,       // the `value` property
    ariaLabel: string)   // the `aria-label` attribute

  datatype Page = Page(title: string, url: string, elements: seq<Element>, bodyText: string)

  datatype HeadingInfo = HeadingInfo(index: nat, level: nat, text: string)
  datatype LinkInfo = LinkInfo(index: nat, text: string, href: string)
  datatype ButtonInfo = ButtonInfo(index: nat, text: string)

  datatype PageSnapshot = PageSnapshot(
    title: string,
    url: string,
    headings: seq<HeadingInfo>,
    links: seq<LinkInfo>,
    buttons: seq<ButtonInfo>,
    bodyText: string)

  /** How the injected snapshot script came back. */
  datatype InjectionOutcome =
    | Rejected               // the script could not run in the tab (it threw)
    | NoResult               // it ran, but the first frame carries no result
    | Returned(page: Page)   // it ran on this page

  const MaxHeadings: nat := 20
  const MaxHeadingText: nat := 100
  const MaxLinks: nat := 30
  const MaxLinkText: nat := 60
  const MaxButtons: nat := 15
  const MaxButtonText: nat := 50
  const MaxBodyText: nat := 4000

  /** Matched by `h1,h2,h3,h4`. */
  predicate IsHeading(e: Element) {
    e.tag.Heading? && 1 <= e.tag.level <= 4
  }

  /** Matched by `a[href]` and kept by the non-blank text filter. */
  predicate IsListedLink(e: Element) {
    e.tag.Anchor? && e.hasHref && Trim(e.text) != ""
  }

  /** Matched by `button, [role="button"], input[type="submit"]`. */
  predicate IsButtonLike(e: Element) {
    e.tag.ButtonTag? || e.role == "button" || (e.tag.InputTag? && e.tag.inputType == "submit")
  }

  /** The elements satisfying `p`, in document order. */
  function Select(es: seq<Element>, p: Element -> bool): (r: seq<Element>)
    ensures |r| <= |es|
    ensures forall i :: 0 <= i < |r| ==> p(r[i])
    ensures forall e :: e in es && p(e) ==> e in r
    ensures forall e :: e in r ==> e in es
  {
    if es == [] then []
    else if p(es[0]) then [es[0]] + Select(es[1..], p)
    else Select(es[1..], p)
  }

  /** `slice(0, n)` on a list. */
  function Prefix<T>(s: seq<T>, n: nat): (r: seq<T>)
    ensures |r| <= n && |r| <= |s| && r == s[..|r|]
    ensures |r| == |s| || |r| == n
  {
    if |s| <= n then s else s[..n]
  }

  /**
   * `textContent.trim() || value || aria-label || ''`: one of the three,
   * empty only when all three are.
   */
  function ButtonLabel(e: Element): (r: string)
    ensures r == Trim(e.text) || r == e.value || r == e.ariaLabel
    ensures r == "" <==> Trim(e.text) == "" && e.value == "" && e.ariaLabel == ""
    ensures Trim(e.text) != "" ==> r == Trim(e.text)
    ensures Trim(e.text) == "" && e.value != "" ==> r == e.value
    ensures Trim(e.text) == "" && e.value == "" ==> r == e.ariaLabel
  {
    if Trim(e.text) != "" then Trim(e.text)
    else if e.value != "" then e.value
    else e.ariaLabel
  }

  /** At most `MaxHeadings` entries, numbered from 0, each text within its cap. */
  function Headings(es: seq<Element>): (r: seq<HeadingInfo>)
    ensures |r| <= MaxHeadings
    ensures forall i :: 0 <= i < |r| ==> r[i].index == i && |r[i].text| <= MaxHeadingText
  {
    var hs := Prefix(Select(es, IsHeading), MaxHeadings);
    seq(|hs|, i requires 0 <= i < |hs| => HeadingInfo(i, hs[i].tag.level, Take(Trim(hs[i].text), MaxHeadingText)))
  }

  /** At most `MaxLinks` entries, numbered from 0, each text within its cap. */
  function Links(es: seq<Element>): (r: seq<LinkInfo>)
    ensures |r| <= MaxLinks
    ensures forall i :: 0 <= i < |r| ==> r[i].index == i && |r[i].text| <= MaxLinkText
  {
    var ls := Prefix(Select(es, IsListedLink), MaxLinks);
    seq(|ls|, i requires 0 <= i < |ls| => LinkInfo(i, Take(Trim(ls[i].text), MaxLinkText), ls[i].href))
  }

  /** At most `MaxButtons` entries, numbered from 0, each label within its cap. */
  function Buttons(es: seq<Element>): (r: seq<ButtonInfo>)
    ensures |r| <= MaxButtons
    ensures forall i :: 0 <= i < |r| ==> r[i].index == i && |r[i].text| <= MaxButtonText
  {
    var bs := Prefix(Select(es, IsButtonLike), MaxButtons);
    seq(|bs|, i requires 0 <= i < |bs| => ButtonInfo(i, Take(ButtonLabel(bs[i]), MaxButtonText)))
  }

  /** Every list and every text field of a snapshot is within its cap. */
  predicate WithinCaps(s: PageSnapshot) {
    && |s.headings| <= MaxHeadings
    && (forall i :: 0 <= i < |s.headings| ==> |s.headings[i].text| <= MaxHeadingText)
    && |s.links| <= MaxLinks
    && (forall i :: 0 <= i < |s.links| ==> |s.links[i].text| <= MaxLinkText)
    && |s.buttons| <= MaxButtons
    && (forall i :: 0 <= i < |s.buttons| ==> |s.buttons[i].text| <= MaxButtonText)
    && |s.bodyText| <= MaxBodyText
  }

  /** The snapshot the injected script builds: whatever the page's size, every cap holds. */
  function Capture(p: Page): (s: PageSnapshot)
    ensures WithinCaps(s)
    ensures s.title == p.title && s.url == p.url
    ensures IsPrefix(s.bodyText, p.bodyText)
    ensures |s.bodyText| == if |p.bodyText| < MaxBodyText then |p.bodyText| else MaxBodyText
    ensures s.headings == Headings(p.elements) && s.links == Links(p.elements) && s.buttons == Buttons(p.elements)
  {
    PageSnapshot(p.title, p.url, Headings(p.elements), Links(p.elements), Buttons(p.elements), Take(p.bodyText, MaxBodyText))
  }

  const EmptySnapshot := PageSnapshot("", "", [], [], [], "")

  /**
   * `getPageStructure`: the captured snapshot, the empty object `{}` (None)
   * when the script returned no result, and the all-empty snapshot when
   * anything threw.
   */
  function GetPageStructure(outcome: InjectionOutcome): (r: Option<PageSnapshot>)
    ensures r.Some? ==> WithinCaps(r.value)
    ensures outcome.Rejected? ==> r == Some(EmptySnapshot)
    ensures outcome.NoResult? <==> r.None?
    ensures outcome.Returned? ==> r == Some(Capture(outcome.page))
  {
    match outcome
    case Rejected => Some(EmptySnapshot)
    case NoResult => None
    case Returned(p) => Some(Capture(p))
  }

  /**
   * Headings keep document order: entry i comes from the i-th heading
   * element, and as many are kept as the page has, up to the cap.
   */
  lemma HeadingsFollowDocumentOrder(es: seq<Element>)
    ensures var hs := Select(es, IsHeading);
      |Headings(es)| == if |hs| < MaxHeadings then |hs| else MaxHeadings
    ensures var hs := Select(es, IsHeading); var s := Headings(es);
      forall i :: 0 <= i < |s| ==>
        s[i].index == i && s[i].level == hs[i].tag.level && 1 <= s[i].level <= 4 && IsPrefix(s[i].text, Trim(hs[i].text))
        && |s[i].text| == (if |Trim(hs[i].text)| < MaxHeadingText then |Trim(hs[i].text)| else MaxHeadingText)
  {
    var hs := Select(es, IsHeading);
    var s := Headings(es);
    forall i | 0 <= i < |s|
      ensures s[i].index == i && s[i].level == hs[i].tag.level && 1 <= s[i].level <= 4 && IsPrefix(s[i].text, Trim(hs[i].text))
      ensures |s[i].text| == if |Trim(hs[i].text)| < MaxHeadingText then |Trim(hs[i].text)| else MaxHeadingText
    {
      assert IsHeading(hs[i]);
    }
  }

  /**
   * Links keep document order, and each kept link has text that is not
   * blank: it is non-empty and does not start with white space.
   */
  lemma {:induction false} LinksFollowDocumentOrder(es: seq<Element>)
    ensures var ls := Select(es, IsListedLink);
      |Links(es)| == if |ls| < MaxLinks then |ls| else MaxLinks
    ensures var ls := Select(es, IsListedLink); var s := Links(es);
      forall i :: 0 <= i < |s| ==>
        s[i].index == i && s[i].href == ls[i].href && IsPrefix(s[i].text, Trim(ls[i].text))
        && |s[i].text| == (if |Trim(ls[i].text)| < MaxLinkText then |Trim(ls[i].text)| else MaxLinkText)
        && s[i].text != [] && !IsSpace(s[i].text[0])
  {
    var ls := Select(es, IsListedLink);
    var s := Links(es);
    forall i | 0 <= i < |s|
      ensures s[i].index == i && s[i].href == ls[i].href && IsPrefix(s[i].text, Trim(ls[i].text))
      ensures |s[i].text| == if |Trim(ls[i].text)| < MaxLinkText then |Trim(ls[i].text)| else MaxLinkText
      ensures s[i].text != [] && !IsSpace(s[i].text[0])
    {
      assert IsListedLink(ls[i]);
      var t := Trim(ls[i].text);
      assert s[i].text == Take(t, MaxLinkText);
      assert s[i].text[0] == t[0];
    }
  }

  /** Buttons keep document order, labelled by text, then value, then aria-label. */
  lemma ButtonsFollowDocumentOrder(es: seq<Element>)
    ensures var bs := Select(es, IsButtonLike);
      |Buttons(es)| == if |bs| < MaxButtons then |bs| else MaxButtons
    ensures var bs := Select(es, IsButtonLike); var s := Buttons(es);
      forall i :: 0 <= i < |s| ==>
        s[i].index == i && IsPrefix(s[i].text, ButtonLabel(bs[i]))
        && |s[i].text| == (if |ButtonLabel(bs[i])| < MaxButtonText then |ButtonLabel(bs[i])| else MaxButtonText)
  {
    var bs := Select(es, IsButtonLike);
    var s := Buttons(es);
    forall i | 0 <= i < |s|
      ensures s[i].index == i && IsPrefix(s[i].text, ButtonLabel(bs[i]))
      ensures |s[i].text| == if |ButtonLabel(bs[i])| < MaxButtonText then |ButtonLabel(bs[i])| else MaxButtonText
    {
      assert s[i].text == Take(ButtonLabel(bs[i]), MaxButtonText);
    }
  }

  /** A page without headings, links or buttons yields empty lists. */
  lemma {:induction false} SelectNone(es: seq<Element>, p: Element -> bool)
    requires forall i :: 0 <= i < |es| ==> !p(es[i])
    ensures Select(es, p) == []
  {
    if es != [] {
      SelectNone(es[1..], p);
    }
  }
}
