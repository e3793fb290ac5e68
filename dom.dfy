/** The remote result page as the verification agent sees it: the panels it
    reads the result text from, the body text, and the elements it strips
    before printing the page. The browser is replaced by these values. */
module Dom {
  import opened Wrappers
  import opened Text
  import opened Classification

  // ---------------------------------------------------------------------------
  // Text extraction
  // ---------------------------------------------------------------------------

  /** What the page answers to the three extraction queries. Each panel is the
      inner text of the first element matching its selector, or None when no
      element matches:
        successPanel  `.panel.panel-success, .panel-success`
        dangerPanel   `.panel.panel-danger, .panel-danger, .alert-danger`
        anyPanel      `.panel`
      and `body` is `document.body.innerText`. */
  datatype RemotePage = RemotePage(
    successPanel: Option<string>,
    dangerPanel: Option<string>,
    anyPanel: Option<string>,
    body: string)

  /** The last resort, evaluated in the page: the whole body when it mentions
      a graduate (case-sensitively), else the sentinel. */
  function BodyFallback(body: string): (r: string)
    ensures r == body || r == NoResultSentinel
  {
    if Contains(body, "egresado") || Contains(body, "Datos del Egresado") then body
    else NoResultSentinel
  }

  /** The first candidate that is present, or None when all are absent. */
  function FirstPresent(candidates: seq<Option<string>>): (r: Option<string>)
    ensures r.None? <==> forall j :: 0 <= j < |candidates| ==> candidates[j].None?
    ensures r.Some? ==> exists j :: 0 <= j < |candidates| && candidates[j] == r
                                    && forall m :: 0 <= m < j ==> candidates[m].None?
  {
    if candidates == [] then None
    else if candidates[0].Some? then candidates[0]
    else
      var rest := FirstPresent(candidates[1..]);
      assert forall j :: 1 <= j < |candidates| ==> candidates[j] == candidates[1..][j - 1];
      rest
  }

  /** The four-step fallback: success panel, then danger panel or alert, then
      any panel, then the body fallback. */
  function ExtractedText(p: RemotePage): string
  {
    match FirstPresent([p.successPanel, p.dangerPanel, p.anyPanel])
    case Some(t) => t
    case None => BodyFallback(p.body)
  }

  /** A success panel wins whatever other panels the page shows. */
  lemma SuccessPanelWins(p: RemotePage)
    requires p.successPanel.Some?
    ensures ExtractedText(p) == p.successPanel.value
  {
  }

  /** Without a success panel, a danger panel or alert wins over a generic one. */
  lemma DangerPanelBeforeGeneric(p: RemotePage)
    requires p.successPanel.None? && p.dangerPanel.Some?
    ensures ExtractedText(p) == p.dangerPanel.value
  {
    var cs := [p.successPanel, p.dangerPanel, p.anyPanel];
    var rest := [p.dangerPanel, p.anyPanel];
    assert cs[1..] == rest;
    assert FirstPresent(rest) == p.dangerPanel;
    assert FirstPresent(cs) == FirstPresent(rest);
  }

  /** Without a success or danger panel, any other panel wins. */
  lemma GenericPanelThird(p: RemotePage)
    requires p.successPanel.None? && p.dangerPanel.None? && p.anyPanel.Some?
    ensures ExtractedText(p) == p.anyPanel.value
  {
    var cs := [p.successPanel, p.dangerPanel, p.anyPanel];
    assert cs[0].None? && cs[1].None? && cs[2].Some?;
    assert FirstPresent(cs).Some?;
    var j :| 0 <= j < |cs| && cs[j] == FirstPresent(cs);
    assert j == 2;
  }

  /** The text comes from the body only when the page has no panel at all. */
  lemma BodyOnlyWithoutPanels(p: RemotePage)
    requires p.successPanel.None? && p.dangerPanel.None? && p.anyPanel.None?
    ensures ExtractedText(p) == BodyFallback(p.body)
  {
    var cs := [p.successPanel, p.dangerPanel, p.anyPanel];
    assert cs[0].None? && cs[1].None? && cs[2].None?;
  }

  /** The body fallback yields a validated text exactly when the body
      mentions `egresado` or `Datos del Egresado` as written; it then yields
      the whole body, and otherwise the sentinel, which is never validated. */
  lemma BodyFallbackClassification(body: string)
    ensures Classify(BodyFallback(body)) == Validado
            <==> Contains(body, "egresado") || Contains(body, "Datos del Egresado")
    ensures Classify(BodyFallback(body)) == Validado ==> BodyFallback(body) == body
  {
    SentinelNotValidado();
    if Contains(body, "egresado") {
      KeywordValidates(body, "egresado");
    } else if Contains(body, "Datos del Egresado") {
      assert Keywords[1] == "Datos del Egresado";
      KeywordValidates(body, "Datos del Egresado");
    }
  }

  // ---------------------------------------------------------------------------
  // Print sanitisation
  // ---------------------------------------------------------------------------

  /** An element of the page, as far as the print sanitisation's selectors
      look at it: its tag name, classes and attributes, and whether an `img`
      sits inside it. */
  datatype Element = Element(
    tag: string,
    classes: set<string>,
    attributes: map<string, string>,
    containsImg: bool)

  /** `a[href*="<word>"]`. */
  predicate LinkTo(e: Element, word: string)
  {
    e.tag == "a" && "href" in e.attributes && Contains(e.attributes["href"], word)
  }

  /** The words of the navigation-link selector list
      `a[href*="Inicio"], a[href*="Portal"], a[href*="Consultar"], a[href*="Iniciar"]`. */
  const NavWords: seq<string> := ["Inicio", "Portal", "Consultar", "Iniciar"]

  /** The element matches `a[href*="w"]` for some word `w` of the list. */
  predicate LinksToAny(e: Element, words: seq<string>)
  {
    words != [] && (LinkTo(e, words[0]) || LinksToAny(e, words[1..]))
  }

  /** The top navigation links the sanitisation strips: anchors whose href
      mentions Inicio, Portal, Consultar or Iniciar and that hold no image. */
  predicate IsStrippedNavLink(e: Element)
  {
    LinksToAny(e, NavWords) && !e.containsImg
  }

  /** The two selectors of which only the first match is removed. */
  datatype Selector =
    | MenuToggle  // `.navbar-toggle, button[data-toggle]`
    | AyudaLink   // `a[href*="Ayuda"]`

  predicate Matches(sel: Selector, e: Element)
  {
    match sel
    case MenuToggle => "navbar-toggle" in e.classes || (e.tag == "button" && "data-toggle" in e.attributes)
    case AyudaLink => LinkTo(e, "Ayuda")
  }

  /** The elements left, in order, after every stripped navigation link is
      removed (`WithoutNavLinksCounts` says what that keeps). */
  function WithoutNavLinks(es: seq<Element>): (r: seq<Element>)
    ensures |r| <= |es|
  {
    if es == [] then []
    else
      var last := es[|es| - 1];
      WithoutNavLinks(es[..|es| - 1]) + (if IsStrippedNavLink(last) then [] else [last])
  }

  lemma WithoutNavLinksAppend(es: seq<Element>, x: Element)
    ensures WithoutNavLinks(es + [x]) == WithoutNavLinks(es) + (if IsStrippedNavLink(x) then [] else [x])
  {
    assert (es + [x])[..|es|] == es;
  }

  /** Each stripped link disappears and every other element keeps its number
      of occurrences. */
  lemma {:induction false} WithoutNavLinksCounts(es: seq<Element>)
    ensures forall e :: multiset(WithoutNavLinks(es))[e] == if IsStrippedNavLink(e) then 0 else multiset(es)[e]
  {
    if es != [] {
      var init, last := es[..|es| - 1], es[|es| - 1];
      assert es == init + [last];
      WithoutNavLinksCounts(init);
      WithoutNavLinksAppend(init, last);
    }
  }

  /** `document.querySelector`: the index of the first element the selector
      matches, or the length of the page when none does. */
  function FirstMatch(sel: Selector, es: seq<Element>): (k: nat)
    ensures k <= |es|
    ensures forall j :: 0 <= j < k ==> !Matches(sel, es[j])
    ensures k < |es| ==> Matches(sel, es[k])
  {
    if es == [] || Matches(sel, es[0]) then 0
    else
      var k := 1 + FirstMatch(sel, es[1..]);
      assert forall j :: 1 <= j < |es| ==> es[j] == es[1..][j - 1];
      k
  }

  /** The page after the first element matching `sel`, if any, is removed. */
  function RemoveFirst(sel: Selector, es: seq<Element>): seq<Element>
  {
    var k := FirstMatch(sel, es);
    if k < |es| then es[..k] + es[k + 1..] else es
  }

  /** Removing the first match takes away exactly one occurrence of that
      element, when there is a match, and nothing else. */
  lemma RemoveFirstCounts(sel: Selector, es: seq<Element>)
    ensures FirstMatch(sel, es) < |es| ==>
              multiset(RemoveFirst(sel, es)) == multiset(es) - multiset{es[FirstMatch(sel, es)]}
              && |RemoveFirst(sel, es)| == |es| - 1
    ensures multiset(RemoveFirst(sel, es)) <= multiset(es)
    ensures forall e :: !Matches(sel, e) ==> multiset(RemoveFirst(sel, es))[e] == multiset(es)[e]
  {
    var k := FirstMatch(sel, es);
    if k < |es| {
      var r := RemoveFirst(sel, es);
      assert r == es[..k] + es[k + 1..];
      CutCounts(es, k);
      assert Matches(sel, es[k]);
    }
  }

  /** Cutting out the element at `k` takes away one occurrence of it. */
  lemma CutCounts<T>(es: seq<T>, k: nat)
    requires k < |es|
    ensures multiset(es[..k] + es[k + 1..]) == multiset(es) - multiset{es[k]}
  {
    assert es == es[..k] + [es[k]] + es[k + 1..];
  }

  /** The page as it is printed: navigation links stripped, then the first
      menu toggle and then the first Ayuda link removed. */
  function Sanitized(es: seq<Element>): seq<Element>
  {
    RemoveFirst(AyudaLink, RemoveFirst(MenuToggle, WithoutNavLinks(es)))
  }

  /** No stripped navigation link survives sanitisation. */
  lemma SanitizedHasNoNavLinks(es: seq<Element>)
    ensures forall e :: e in Sanitized(es) ==> !IsStrippedNavLink(e)
  {
    var r0 := WithoutNavLinks(es);
    var r1 := RemoveFirst(MenuToggle, r0);
    WithoutNavLinksCounts(es);
    RemoveFirstCounts(MenuToggle, r0);
    RemoveFirstCounts(AyudaLink, r1);
  }

  /** Sanitisation removes nothing but stripped navigation links, one menu
      toggle and one Ayuda link: any other element keeps all its occurrences,
      and at most two elements beyond the stripped links disappear. */
  lemma SanitizedKeepsEverythingElse(es: seq<Element>)
    ensures forall e :: !IsStrippedNavLink(e) && !Matches(MenuToggle, e) && !Matches(AyudaLink, e)
                        ==> multiset(Sanitized(es))[e] == multiset(es)[e]
    ensures multiset(Sanitized(es)) <= multiset(es)
    ensures |WithoutNavLinks(es)| - 2 <= |Sanitized(es)| <= |WithoutNavLinks(es)|
  {
    var r0 := WithoutNavLinks(es);
    var r1 := RemoveFirst(MenuToggle, r0);
    WithoutNavLinksCounts(es);
    RemoveFirstCounts(MenuToggle, r0);
    RemoveFirstCounts(AyudaLink, r1);
    assert multiset(r0) <= multiset(es);
  }

  /** A page with nothing to strip prints as it is. */
  lemma SanitizedNothingToStrip(es: seq<Element>)
    requires forall e :: e in es ==> !IsStrippedNavLink(e) && !Matches(MenuToggle, e) && !Matches(AyudaLink, e)
    ensures Sanitized(es) == es
  {
    var r0 := WithoutNavLinks(es);
    NoNavLinksKept(es);
    assert FirstMatch(MenuToggle, r0) == |r0|;
    assert FirstMatch(AyudaLink, r0) == |r0|;
  }

  lemma {:induction false} NoNavLinksKept(es: seq<Element>)
    requires forall e :: e in es ==> !IsStrippedNavLink(e)
    ensures WithoutNavLinks(es) == es
  {
    if es != [] {
      var init := es[..|es| - 1];
      assert es == init + [es[|es| - 1]];
      NoNavLinksKept(init);
    }
  }

  /** Removing the element at index |a| of `a + b`. */
  lemma DropAt<T>(a: seq<T>, b: seq<T>)
    requires b != []
    ensures (a + b)[..|a|] + (a + b)[|a| + 1..] == a + b[1..]
  {
    assert (a + b)[..|a|] == a;
    assert (a + b)[|a| + 1..] == b[1..];
  }

  /** One step of the stripping loop over a stripped link: the state after
      it is the state before with the link cut out. */
  lemma StripStepRemoves(s: seq<Element>, j: nat)
    requires j < |s| && IsStrippedNavLink(s[j])
    ensures var before, after := WithoutNavLinks(s[..j]), WithoutNavLinks(s[..j + 1]);
            var state := before + s[j..];
            |after| == |before| && after + s[j + 1..] == state[..|before|] + state[|before| + 1..]
  {
    var before := WithoutNavLinks(s[..j]);
    assert s[..j + 1] == s[..j] + [s[j]];
    WithoutNavLinksAppend(s[..j], s[j]);
    assert WithoutNavLinks(s[..j + 1]) == before;
    DropAt(before, s[j..]);
    assert s[j..][1..] == s[j + 1..];
  }

  /** One step of the stripping loop over any other element: the state is
      unchanged and one more element is kept. */
  lemma StripStepKeeps(s: seq<Element>, j: nat)
    requires j < |s| && !IsStrippedNavLink(s[j])
    ensures var before, after := WithoutNavLinks(s[..j]), WithoutNavLinks(s[..j + 1]);
            |after| == |before| + 1 && after + s[j + 1..] == before + s[j..]
  {
    var before := WithoutNavLinks(s[..j]);
    assert s[..j + 1] == s[..j] + [s[j]];
    WithoutNavLinksAppend(s[..j], s[j]);
    assert WithoutNavLinks(s[..j + 1]) == before + [s[j]];
    assert s[j..] == [s[j]] + s[j + 1..];
    assert before + s[j..] == (before + [s[j]]) + s[j + 1..];
  }

  // ---------------------------------------------------------------------------
  // The page object
  // ---------------------------------------------------------------------------

  /** A mouse or keyboard action the agent performs on the page. */
  datatype Interaction =
    | Click(selector: string, clickCount: nat)
    | Type(selector: string, text: string)
    | Press(key: string)

  /** The browser page the agent drives. What the remote site renders is
      fixed; the agent records its actions on the page, strips elements in
      place before printing, sets the print layout of the body and renders
      PDF files from it. */
  class Page {
    const remote: RemotePage
    var elements: seq<Element>
    var interactions: seq<Interaction>
    var printLayout: bool
    var artifacts: seq<string>

    constructor (remote: RemotePage, elements: seq<Element>)
      ensures this.remote == remote && this.elements == elements
      ensures interactions == [] && !printLayout && artifacts == []
    {
      this.remote := remote;
      this.elements := elements;
      interactions := [];
      printLayout := false;
      artifacts := [];
    }

    /** Records one action on the page. */
    method Perform(action: Interaction)
      modifies this`interactions
      ensures interactions == old(interactions) + [action]
    {
      interactions := interactions + [action];
    }

    /** The four-step extraction: success panel, danger panel or alert, any
        panel, body fallback. */
    method ExtractResultText() returns (resultadoTexto: string)
      ensures resultadoTexto == ExtractedText(remote)
    {
      if remote.successPanel.Some? {
        resultadoTexto := remote.successPanel.value;
        SuccessPanelWins(remote);
      } else if remote.dangerPanel.Some? {
        resultadoTexto := remote.dangerPanel.value;
        DangerPanelBeforeGeneric(remote);
      } else if remote.anyPanel.Some? {
        resultadoTexto := remote.anyPanel.value;
        GenericPanelThird(remote);
      } else {
        resultadoTexto := BodyFallback(remote.body);
        BodyOnlyWithoutPanels(remote);
      }
    }

    /** Removes, one by one, every navigation link the selector list matched
        (`navLinks.forEach(link => link.remove())`), leaving any link that
        holds an image. */
    method RemoveNavLinks()
      modifies this`elements
      ensures elements == WithoutNavLinks(old(elements))
    {
      ghost var original := elements;
      var snapshot := elements;
      var i, j := 0, 0;
      while j < |snapshot|
        invariant j <= |snapshot|
        invariant elements == WithoutNavLinks(snapshot[..j]) + snapshot[j..]
        invariant i == |WithoutNavLinks(snapshot[..j])|
      {
        if IsStrippedNavLink(snapshot[j]) {
          StripStepRemoves(snapshot, j);
          elements := elements[..i] + elements[i + 1..];
        } else {
          StripStepKeeps(snapshot, j);
          i := i + 1;
        }
        j := j + 1;
      }
      assert snapshot[..j] == original;
    }

    /** `document.querySelector(sel)` followed by `remove()` when it found an
        element. */
    method RemoveFirstMatch(sel: Selector)
      modifies this`elements
      ensures elements == RemoveFirst(sel, old(elements))
    {
      var k := 0;
      while k < |elements| && !Matches(sel, elements[k])
        invariant k <= |elements|
        invariant forall j :: 0 <= j < k ==> !Matches(sel, elements[j])
      {
        k := k + 1;
      }
      assert k == FirstMatch(sel, elements);
      if k < |elements| {
        elements := elements[..k] + elements[k + 1..];
      }
    }

    /** Prepares the page for printing: strips navigation links, the menu
        toggle and the Ayuda link, and sets the body's print spacing. */
    method Sanitize()
      modifies this`elements, this`printLayout
      ensures elements == Sanitized(old(elements))
      ensures printLayout
    {
      RemoveNavLinks();
      RemoveFirstMatch(MenuToggle);
      RemoveFirstMatch(AyudaLink);
      printLayout := true;
    }

    /** Writes a PDF of the page to `filename`. */
    method RenderPdf(filename: string)
      modifies this`artifacts
      ensures artifacts == old(artifacts) + [filename]
    {
      artifacts := artifacts + [filename];
    }
  }
}
