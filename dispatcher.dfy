/**
 * The action dispatcher (`executeAction` in src/background.js): it turns an
 * action record into at most a few effects on the page. The page is its
 * sequence of elements; the CSS selector the record names is given as the
 * ordered positions of the elements it matches, or None when the selector
 * is invalid and querying it throws.
 */
module Dispatcher {
  import opened Wrappers
  import opened Text
  import opened Actions
  import opened Snapshot

  /** What the injected script does to the page. */
  datatype Effect =
    | Clicked(position: nat)
    | ScrolledBy(sign: int)                   // +1 down, -1 up, by three quarters of the viewport
    | ValueSet(position: nat, value: string)
    | EventFired(position: nat, event: string)
    | HistoryBack
    | HistoryForward
    | LocationSet(url: string)

  /** Kinds the dispatcher returns on at once, without touching the tab. */
  predicate IsPassive(a: ActionRecord) {
    !Truthy(a.action) || a.action.value == "none" || a.action.value == "read" || a.action.value == "list"
  }

  /** The selector's matches lie on the page and are in document order. */
  predicate ValidMatches(page: Page, matches: Option<seq<nat>>) {
    matches.Some? ==>
      && (forall i :: 0 <= i < |matches.value| ==> matches.value[i] < |page.elements|)
      && (forall i, j :: 0 <= i < j < |matches.value| ==> matches.value[i] < matches.value[j])
  }

  /** What `querySelectorAll('a, button')` returns. */
  predicate IsClickable(e: Element) {
    e.tag.Anchor? || e.tag.ButtonTag?
  }

  /** The element's lower-cased text contains `needle`. */
  predicate TextMatches(e: Element, needle: string) {
    Contains(ToLower(e.text), needle)
  }

  /**
   * The first link or button at or after `from` whose lower-cased text
   * contains `needle`.
   */
  function FirstTextMatch(es: seq<Element>, needle: string, from: nat): (r: Option<nat>)
    requires from <= |es|
    ensures r.Some? ==> from <= r.value < |es| && IsClickable(es[r.value]) && TextMatches(es[r.value], needle)
    ensures r.Some? ==> forall k :: from <= k < r.value ==> !(IsClickable(es[k]) && TextMatches(es[k], needle))
    ensures r.None? ==> forall k :: from <= k < |es| ==> !(IsClickable(es[k]) && TextMatches(es[k], needle))
    decreases |es| - from
  {
    if from == |es| then None
    else if IsClickable(es[from]) && TextMatches(es[from], needle) then Some(from)
    else FirstTextMatch(es, needle, from + 1)
  }

  /** `actionData.index || 0`. */
  function IndexOrZero(a: ActionRecord): int {
    a.index.GetOr(0)
  }

  /** The single element a click activates, if any. */
  function ClickTarget(a: ActionRecord, page: Page, matches: Option<seq<nat>>): Option<nat> {
    if Truthy(a.selector) && matches.None? then None  // the selector throws; no fallback runs
    else if Truthy(a.selector) && 0 <= IndexOrZero(a) < |matches.value| then Some(matches.value[IndexOrZero(a)])
    else if Truthy(a.value) then FirstTextMatch(page.elements, ToLower(a.value.value), 0)
    else None
  }

  function ScrollEffects(a: ActionRecord): seq<Effect> {
    if a.direction == Some("down") then [ScrolledBy(1)]
    else if a.direction == Some("up") then [ScrolledBy(-1)]
    else []
  }

  function FillEffects(a: ActionRecord, matches: Option<seq<nat>>): seq<Effect> {
    if Truthy(a.selector) && Truthy(a.value) && matches.Some? && matches.value != [] then
      var p := matches.value[0];
      [ValueSet(p, a.value.value), EventFired(p, "input"), EventFired(p, "change")]
    else []
  }

  function NavigateEffects(a: ActionRecord): seq<Effect> {
    if a.value == Some("back") then [HistoryBack]
    else if a.value == Some("forward") then [HistoryForward]
    else if Truthy(a.value) then [LocationSet(a.value.value)]
    else []
  }

  /** The effect acts on an element of the page, if it acts on one at all. */
  predicate OnPage(e: Effect, page: Page) {
    (e.Clicked? || e.ValueSet? || e.EventFired?) ==> e.position < |page.elements|
  }

  /**
   * Everything `executeAction` does to the page: at most three effects,
   * every one on an element of the page when the selector's matches are.
   * `injectable` is false when the tab refuses injected scripts; the
   * failure is caught and nothing happens.
   */
  function Effects(a: ActionRecord, page: Page, matches: Option<seq<nat>>, injectable: bool): (r: seq<Effect>)
    ensures |r| <= 3
    ensures ValidMatches(page, matches) ==> forall i :: 0 <= i < |r| ==> OnPage(r[i], page)
  {
    if IsPassive(a) || !injectable then []
    else if a.action.value == "click" then
      (match ClickTarget(a, page, matches) case Some(p) => [Clicked(p)] case None => [])
    else if a.action.value == "scroll" then ScrollEffects(a)
    else if a.action.value == "fill" then FillEffects(a, matches)
    else if a.action.value == "navigate" then NavigateEffects(a)
    else []
  }

  /**
   * The click fallback: scan the links and buttons in document order and
   * stop at the first whose lower-cased text contains `needle`.
   */
  method FindByText(es: seq<Element>, needle: string) returns (found: Option<nat>)
    ensures found == FirstTextMatch(es, needle, 0)
  {
    var i := 0;
    while i < |es|
      invariant 0 <= i <= |es|
      invariant FirstTextMatch(es, needle, 0) == FirstTextMatch(es, needle, i)
    {
      if IsClickable(es[i]) && Contains(ToLower(es[i].text), needle) {
        return Some(i);
      }
      i := i + 1;
    }
    return None;
  }

  /**
   * `executeAction` as the injected script runs it: the click branch step
   * by step, with the early-return text search; the other kinds through
   * their effect functions.
   */
  method Execute(a: ActionRecord, page: Page, matches: Option<seq<nat>>, injectable: bool)
    returns (effects: seq<Effect>)
    ensures effects == Effects(a, page, matches, injectable)
  {
    if IsPassive(a) || !injectable {
      return [];
    }
    effects := [];
    var kind := a.action.value;
    if kind == "click" {
      if Truthy(a.selector) {
        if matches.None? {
          return;
        }
        var k := IndexOrZero(a);
        if 0 <= k < |matches.value| {
          return [Clicked(matches.value[k])];
        }
      }
      if Truthy(a.value) {
        var found := FindByText(page.elements, ToLower(a.value.value));
        if found.Some? {
          effects := [Clicked(found.value)];
        }
      }
    } else if kind == "scroll" {
      effects := ScrollEffects(a);
    } else if kind == "fill" {
      effects := FillEffects(a, matches);
    } else if kind == "navigate" {
      effects := NavigateEffects(a);
    }
  }

  /** An absent action, `none`, `read` and `list` leave the page alone. */
  lemma PassiveDoesNothing(a: ActionRecord, page: Page, matches: Option<seq<nat>>, injectable: bool)
    requires a.action.None? || a.action == Some("") || a.action == Some("none")
          || a.action == Some("read") || a.action == Some("list")
    ensures Effects(a, page, matches, injectable) == []
  {
  }

  /**
   * A click activates at most one element: the selector's match at
   * `index || 0` when there is one; otherwise, unless the selector threw,
   * the first link or button in document order whose lower-cased text
   * contains the lower-cased value; otherwise nothing.
   */
  lemma ClickChoosesOne(a: ActionRecord, page: Page, matches: Option<seq<nat>>)
    requires a.action == Some("click") && ValidMatches(page, matches)
    ensures var e := Effects(a, page, matches, true);
      |e| <= 1 && (forall i :: 0 <= i < |e| ==> e[i].Clicked? && e[i].position < |page.elements|)
    ensures Truthy(a.selector) && matches.Some? && 0 <= IndexOrZero(a) < |matches.value| ==>
      Effects(a, page, matches, true) == [Clicked(matches.value[IndexOrZero(a)])]
    ensures Truthy(a.selector) && matches.None? ==> Effects(a, page, matches, true) == []
    ensures (!Truthy(a.selector) || (matches.Some? && !(0 <= IndexOrZero(a) < |matches.value|))) ==>
      forall p: nat :: Effects(a, page, matches, true) == [Clicked(p)] <==>
        && Truthy(a.value)
        && p < |page.elements|
        && IsClickable(page.elements[p]) && TextMatches(page.elements[p], ToLower(a.value.value))
        && forall k :: 0 <= k < p ==> !(IsClickable(page.elements[k]) && TextMatches(page.elements[k], ToLower(a.value.value)))
  {
    var es := page.elements;
    if (!Truthy(a.selector) || (matches.Some? && !(0 <= IndexOrZero(a) < |matches.value|))) && Truthy(a.value) {
      var needle := ToLower(a.value.value);
      forall p: nat | Effects(a, page, matches, true) != [Clicked(p)]
        ensures !(p < |es| && IsClickable(es[p]) && TextMatches(es[p], needle)
                  && forall k :: 0 <= k < p ==> !(IsClickable(es[k]) && TextMatches(es[k], needle)))
      {
        var r := FirstTextMatch(es, needle, 0);
        if p < |es| && IsClickable(es[p]) && TextMatches(es[p], needle) {
          assert r.Some? && r.value <= p;
        }
      }
    }
  }

  /**
   * A fill acts only when both selector and value are present and the
   * selector matches; it then sets the first match's value and fires
   * `input` and then `change` on it.
   */
  lemma FillSetsThenNotifies(a: ActionRecord, page: Page, matches: Option<seq<nat>>)
    requires a.action == Some("fill")
    ensures Effects(a, page, matches, true) != [] <==>
      Truthy(a.selector) && Truthy(a.value) && matches.Some? && matches.value != []
    ensures Effects(a, page, matches, true) != [] ==>
      var p := matches.value[0];
      Effects(a, page, matches, true) == [ValueSet(p, a.value.value), EventFired(p, "input"), EventFired(p, "change")]
  {
  }

  /**
   * Navigation: `back` and `forward` use the history, any other non-empty
   * value becomes the location, and an empty or absent value does nothing.
   */
  lemma NavigateRule(a: ActionRecord, page: Page, matches: Option<seq<nat>>)
    requires a.action == Some("navigate")
    ensures var e := Effects(a, page, matches, true);
      && (e == [HistoryBack] <==> a.value == Some("back"))
      && (e == [HistoryForward] <==> a.value == Some("forward"))
      && (e == [] <==> !Truthy(a.value))
      && (forall u :: e == [LocationSet(u)] <==> a.value == Some(u) && u != "" && u != "back" && u != "forward")
  {
  }

  /** Scrolling moves down for `down`, up for `up`, and otherwise not at all. */
  lemma ScrollRule(a: ActionRecord, page: Page, matches: Option<seq<nat>>)
    requires a.action == Some("scroll")
    ensures var e := Effects(a, page, matches, true);
      && (e == [ScrolledBy(1)] <==> a.direction == Some("down"))
      && (e == [ScrolledBy(-1)] <==> a.direction == Some("up"))
      && (e == [] <==> a.direction != Some("down") && a.direction != Some("up"))
  {
  }

  /** A tab that refuses the injected script is left untouched. */
  lemma RefusedInjectionDoesNothing(a: ActionRecord, page: Page, matches: Option<seq<nat>>)
    ensures Effects(a, page, matches, false) == []
  {
  }
}
