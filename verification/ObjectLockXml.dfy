/** `parse_bucket_object_lock` (app/xml/parse_bucket_object_lock.py) over an abstract element tree. */
module ObjectLockXml {
  import opened Text
  import opened Etags
  import opened Integers
  import opened BucketRows

  datatype Element = Element(tag: string, text: Option<string>, children: seq<Element>)

  /** `tag.rsplit("}", 1)[-1]`: what follows the last brace. */
  function StripElement(tag: string): string {
    if tag == "" then ""
    else if tag[|tag| - 1] == '}' then ""
    else StripElement(tag[..|tag| - 1]) + [tag[|tag| - 1]]
  }

  function Stripped(s: string): string { Strip(s, c => IsSpace(c)) }

  /** `if not element.text`. */
  predicate NoText(e: Element) { e.text.None? || e.text.value == "" }

  // ---------- the parser ----------

  datatype Retention = Retention(mode: Option<string>, days: Option<int>, years: Option<int>)

  const NO_RETENTION := Retention(None, None, None)

  datatype Parsed = Parsed(enabled: Option<string>, retention: Retention)

  /** One child of DefaultRetention; None is a ValueError. */
  function AddRetention(r: Retention, e: Element): Option<Retention> {
    var name := StripElement(e.tag);
    if name == "Mode" then
      if NoText(e) then None
      else
        var mode := Stripped(e.text.value);
        if mode == GOVERNANCE || mode == COMPLIANCE then Some(r.(mode := Some(mode))) else None
    else if name == "Days" then
      if NoText(e) then None
      else match ParseInt(Stripped(e.text.value))
        case None => None
        case Some(n) => Some(r.(days := Some(n)))
    else if name == "Years" then
      if NoText(e) then None
      else match ParseInt(Stripped(e.text.value))
        case None => None
        case Some(n) => Some(r.(years := Some(n)))
    else None
  }

  function AddAll(elements: seq<Element>): Option<Retention> {
    if elements == [] then Some(NO_RETENTION)
    else match AddAll(elements[..|elements| - 1])
      case None => None
      case Some(r) => AddRetention(r, elements[|elements| - 1])
  }

  /** A mode, and exactly one positive period. */
  predicate Complete(r: Retention) {
    && r.mode.Some?
    && r.days.None? != r.years.None?
    && (r.days.Some? ==> r.days.value > 0) && (r.years.Some? ==> r.years.value > 0)
  }

  function DefaultRetention(e: Element): Option<Retention> {
    match AddAll(e.children)
    case None => None
    case Some(r) => if Complete(r) then Some(r) else None
  }

  function Rule(e: Element): Option<Retention> {
    if |e.children| != 1 || StripElement(e.children[0].tag) != "DefaultRetention" then None
    else DefaultRetention(e.children[0])
  }

  function AddElement(p: Parsed, e: Element): Option<Parsed> {
    var name := StripElement(e.tag);
    if name == "ObjectLockEnabled" then
      if NoText(e) || Stripped(e.text.value) != ENABLED then None else Some(p.(enabled := Some(ENABLED)))
    else if name == "Rule" then
      match Rule(e)
      case None => None
      case Some(r) => Some(p.(retention := r))
    else None
  }

  function AddElements(elements: seq<Element>): Option<Parsed> {
    if elements == [] then Some(Parsed(None, NO_RETENTION))
    else match AddElements(elements[..|elements| - 1])
      case None => None
      case Some(p) => AddElement(p, elements[|elements| - 1])
  }

  function Parse(root: Element): Option<Parsed> {
    if StripElement(root.tag) != "ObjectLockConfiguration" then None else AddElements(root.children)
  }

  lemma {:induction false} NoneStays(elements: seq<Element>, n: nat)
    requires n <= |elements|
    ensures AddAll(elements[..n]).None? ==> AddAll(elements).None?
    ensures AddElements(elements[..n]).None? ==> AddElements(elements).None?
    decreases |elements| - n
  {
    if n < |elements| {
      assert elements[..n + 1][..n] == elements[..n];
      NoneStays(elements, n + 1);
    } else {
      assert elements[..n] == elements;
    }
  }

  /** `_parse_default_retention`: the loop over the children. */
  method ParseDefaultRetention(retention: Element) returns (r: Option<Retention>)
    ensures r == DefaultRetention(retention)
  {
    hide ParseInt, Stripped, StripElement;
    var mode: Option<string>, days: Option<int>, years: Option<int> := None, None, None;
    for index := 0 to |retention.children|
      invariant AddAll(retention.children[..index]) == Some(Retention(mode, days, years))
    {
      var element := retention.children[index];
      assert retention.children[..index + 1][..index] == retention.children[..index];
      NoneStays(retention.children, index + 1);
      var name := StripElement(element.tag);
      if name == "Mode" {
        if NoText(element) { return None; }
        var text := Stripped(element.text.value);
        if text != GOVERNANCE && text != COMPLIANCE { return None; }
        mode := Some(text);
      } else if name == "Days" {
        if NoText(element) { return None; }
        var n := ParseInt(Stripped(element.text.value));
        if n.None? { return None; }
        days := n;
      } else if name == "Years" {
        if NoText(element) { return None; }
        var n := ParseInt(Stripped(element.text.value));
        if n.None? { return None; }
        years := n;
      } else {
        return None;
      }
    }
    assert retention.children[..|retention.children|] == retention.children;
    if mode.None? { return None; }
    if days.None? == years.None? { return None; }
    if days.Some? && days.value <= 0 { return None; }
    if years.Some? && years.value <= 0 { return None; }
    return Some(Retention(mode, days, years));
  }

  method ParseRule(rule: Element) returns (r: Option<Retention>)
    ensures r == Rule(rule)
  {
    if |rule.children| != 1 || StripElement(rule.children[0].tag) != "DefaultRetention" { return None; }
    r := ParseDefaultRetention(rule.children[0]);
  }

  /** `parse_bucket_object_lock`: the loop over the root's children. */
  method ParseBucketObjectLock(root: Element) returns (p: Option<Parsed>)
    ensures p == Parse(root)
  {
    if StripElement(root.tag) != "ObjectLockConfiguration" { return None; }
    var enabled: Option<string>, retention := None, NO_RETENTION;
    for index := 0 to |root.children|
      invariant AddElements(root.children[..index]) == Some(Parsed(enabled, retention))
    {
      var element := root.children[index];
      assert root.children[..index + 1][..index] == root.children[..index];
      NoneStays(root.children, index + 1);
      var name := StripElement(element.tag);
      if name == "ObjectLockEnabled" {
        if NoText(element) { return None; }
        enabled := Some(Stripped(element.text.value));
        if enabled != Some(ENABLED) { return None; }
      } else if name == "Rule" {
        var rule := ParseRule(element);
        if rule.None? { return None; }
        retention := rule.value;
      } else {
        return None;
      }
    }
    assert root.children[..|root.children|] == root.children;
    return Some(Parsed(enabled, retention));
  }

  // ---------- exactly what the parser lets through ----------

  /** `int` reads no longer numbers. */
  predicate ShortPeriod(period: Option<int>) {
    period.Some? && period.value >= 0 ==> |Decimal(period.value)| <= DIGITS_MAX
  }

  predicate WholeRetention(r: Retention) {
    r == NO_RETENTION
    || (Complete(r) && (r.mode.value == GOVERNANCE || r.mode.value == COMPLIANCE) && ShortPeriod(r.days) && ShortPeriod(r.years))
  }

  predicate LetThrough(p: Parsed) {
    (p.enabled.None? || p.enabled.value == ENABLED) && WholeRetention(p.retention)
  }

  lemma {:induction false} RetentionValues(elements: seq<Element>)
    requires AddAll(elements).Some?
    ensures var r := AddAll(elements).value;
      && (r.mode.Some? ==> r.mode.value == GOVERNANCE || r.mode.value == COMPLIANCE)
      && ShortPeriod(r.days) && ShortPeriod(r.years)
  {
    if elements != [] {
      RetentionValues(elements[..|elements| - 1]);
      var last := elements[|elements| - 1];
      if !NoText(last) { ParsedIsShort(Stripped(last.text.value)); }
    }
  }

  lemma {:induction false} ElementsLetThrough(elements: seq<Element>)
    ensures AddElements(elements).Some? ==> LetThrough(AddElements(elements).value)
  {
    if elements != [] {
      ElementsLetThrough(elements[..|elements| - 1]);
      var last := elements[|elements| - 1];
      if StripElement(last.tag) == "Rule" && Rule(last).Some? { RetentionValues(last.children[0].children); }
    }
  }

  function Leaf(tag: string, text: string): Element { Element(tag, Some(text), []) }

  /** A document that says `p`. */
  function Document(p: Parsed): Element
    requires LetThrough(p)
  {
    Element("ObjectLockConfiguration", None,
      if p.retention == NO_RETENTION then
        (if p.enabled.Some? then [Leaf("ObjectLockEnabled", ENABLED)] else [])
      else if p.enabled.Some? then [Leaf("ObjectLockEnabled", ENABLED), RuleElement(p.retention)]
      else [RuleElement(p.retention)])
  }

  function RetentionElement(r: Retention): Element
    requires Complete(r)
  {
    Element("DefaultRetention", None, [
      Leaf("Mode", r.mode.value),
      if r.days.Some? then Leaf("Days", Decimal(r.days.value)) else Leaf("Years", Decimal(r.years.value))])
  }

  lemma {:induction false} PlainTag(tag: string)
    requires '}' !in tag
    ensures StripElement(tag) == tag
  {
    if tag != "" {
      PlainTag(tag[..|tag| - 1]);
      assert tag == tag[..|tag| - 1] + [tag[|tag| - 1]];
    }
  }

  lemma UnpaddedStays(s: string)
    requires s != "" && !IsSpace(s[0]) && !IsSpace(s[|s| - 1])
    ensures Stripped(s) == s
  {
  }

  lemma DecimalUnpadded(n: nat)
    ensures Stripped(Decimal(n)) == Decimal(n)
  {
  }

  lemma TwoRetentions(a: Element, b: Element)
    ensures AddAll([a, b]) == match AddRetention(NO_RETENTION, a) case None => None case Some(r) => AddRetention(r, b)
  {
    assert [a, b][..1] == [a] && [a][..0] == [];
    assert AddAll([a]) == AddRetention(NO_RETENTION, a);
  }

  lemma FewElements(a: Element, b: Element)
    ensures AddElements([a]) == AddElement(Parsed(None, NO_RETENTION), a)
    ensures AddElements([a, b]) == match AddElements([a]) case None => None case Some(p) => AddElement(p, b)
  {
  }

  lemma ModeReads(r: Retention, mode: string)
    requires mode == GOVERNANCE || mode == COMPLIANCE
    ensures AddRetention(r, Leaf("Mode", mode)) == Some(r.(mode := Some(mode)))
  {
    PlainTag("Mode");
    UnpaddedStays(mode);
  }

  lemma PeriodReads(n: nat)
    requires |Decimal(n)| <= DIGITS_MAX
    ensures ParseInt(Stripped(Decimal(n))) == Some(n) && !NoText(Leaf("", Decimal(n)))
  {
    DecimalUnpadded(n);
    DecimalParses(n);
  }

  lemma DaysRead(r: Retention, n: nat)
    requires |Decimal(n)| <= DIGITS_MAX
    ensures AddRetention(r, Leaf("Days", Decimal(n))) == Some(r.(days := Some(n)))
  {
    PlainTag("Days");
    PeriodReads(n);
  }

  lemma YearsRead(r: Retention, n: nat)
    requires |Decimal(n)| <= DIGITS_MAX
    ensures AddRetention(r, Leaf("Years", Decimal(n))) == Some(r.(years := Some(n)))
  {
    PlainTag("Years");
    PeriodReads(n);
  }

  lemma RetentionReadsBack(r: Retention)
    requires r != NO_RETENTION && WholeRetention(r)
    ensures DefaultRetention(RetentionElement(r)) == Some(r)
  {
    var e := RetentionElement(r).children;
    TwoRetentions(e[0], e[1]);
    ModeReads(NO_RETENTION, r.mode.value);
    if r.days.Some? {
      DaysRead(NO_RETENTION.(mode := r.mode), r.days.value);
    } else {
      YearsRead(NO_RETENTION.(mode := r.mode), r.years.value);
    }
  }

  lemma EnabledReads(p: Parsed)
    ensures AddElement(p, Leaf("ObjectLockEnabled", ENABLED)) == Some(p.(enabled := Some(ENABLED)))
  {
    PlainTag("ObjectLockEnabled");
    UnpaddedStays(ENABLED);
  }

  function RuleElement(r: Retention): Element
    requires Complete(r)
  {
    Element("Rule", None, [RetentionElement(r)])
  }

  lemma RuleReads(p: Parsed, r: Retention)
    requires r != NO_RETENTION && WholeRetention(r)
    ensures AddElement(p, RuleElement(r)) == Some(p.(retention := r))
  {
    PlainTag("Rule");
    PlainTag("DefaultRetention");
    RetentionReadsBack(r);
  }

  lemma DocumentReadsBack(p: Parsed)
    requires LetThrough(p)
    ensures Parse(Document(p)) == Some(p)
  {
    PlainTag("ObjectLockConfiguration");
    var start := Parsed(None, NO_RETENTION);
    if p.retention == NO_RETENTION {
      if p.enabled.Some? {
        FewElements(Leaf("ObjectLockEnabled", ENABLED), Leaf("", ""));
        EnabledReads(start);
      }
    } else {
      var rule := RuleElement(p.retention);
      RuleReads(start, p.retention);
      FewElements(rule, rule);
      if p.enabled.Some? {
        FewElements(Leaf("ObjectLockEnabled", ENABLED), rule);
        EnabledReads(start);
        RuleReads(start.(enabled := Some(ENABLED)), p.retention);
      }
    }
  }

  // ---------- what a document says, child by child ----------

  function Name(e: Element): string { StripElement(e.tag) }

  /** No later sibling has the same name. */
  ghost predicate LastOfName(es: seq<Element>, i: nat)
    requires i < |es|
  {
    forall j :: i < j < |es| ==> Name(es[j]) != Name(es[i])
  }

  ghost predicate Named(es: seq<Element>, name: string) { exists i :: 0 <= i < |es| && Name(es[i]) == name }

  ghost predicate ReadableRetention(e: Element) {
    && !NoText(e)
    && (Name(e) == "Mode" ==> Stripped(e.text.value) in {GOVERNANCE, COMPLIANCE})
    && (Name(e) != "Mode" ==> (Name(e) == "Days" || Name(e) == "Years") && ParseInt(Stripped(e.text.value)).Some?)
  }

  ghost predicate SaysRetention(r: Retention, e: Element)
    requires !NoText(e)
  {
    var text := Stripped(e.text.value);
    && (Name(e) == "Mode" ==> r.mode == Some(text))
    && (Name(e) == "Days" ==> r.days == ParseInt(text))
    && (Name(e) == "Years" ==> r.years == ParseInt(text))
  }

  /** What the children of DefaultRetention say together: the last of each name counts. */
  ghost predicate RetentionSaid(es: seq<Element>, r: Retention) {
    && (forall i :: 0 <= i < |es| ==> ReadableRetention(es[i]) && (LastOfName(es, i) ==> SaysRetention(r, es[i])))
    && (r.mode.Some? <==> Named(es, "Mode")) && (r.days.Some? <==> Named(es, "Days")) && (r.years.Some? <==> Named(es, "Years"))
  }

  lemma NamedLonger(es: seq<Element>, e: Element, name: string)
    ensures Named(es + [e], name) <==> Named(es, name) || Name(e) == name
  {
    var all := es + [e];
    if Name(e) == name { assert Name(all[|es|]) == name; }
    if i :| 0 <= i < |es| && Name(es[i]) == name { assert Name(all[i]) == name; }
  }

  lemma LastLonger(es: seq<Element>, e: Element, i: nat)
    requires i < |es|
    ensures LastOfName(es + [e], i) <==> LastOfName(es, i) && Name(e) != Name(es[i])
  {
    var all := es + [e];
    assert all[|es|] == e && forall j :: 0 <= j < |es| ==> all[j] == es[j];
  }

  lemma RetentionStep(es: seq<Element>, r: Retention, e: Element)
    requires RetentionSaid(es, r)
    ensures AddRetention(r, e).Some? <==> ReadableRetention(e)
    ensures AddRetention(r, e).Some? ==> RetentionSaid(es + [e], AddRetention(r, e).value)
  {
    var all := es + [e];
    NamedLonger(es, e, "Mode");
    NamedLonger(es, e, "Days");
    NamedLonger(es, e, "Years");
    if AddRetention(r, e).Some? {
      var r' := AddRetention(r, e).value;
      forall i | 0 <= i < |all| ensures ReadableRetention(all[i]) && (LastOfName(all, i) ==> SaysRetention(r', all[i])) {
        if i < |es| {
          assert all[i] == es[i];
          LastLonger(es, e, i);
        }
      }
    }
  }

  /** DefaultRetention is read exactly when each of its children can be, and then says what they say together. */
  lemma {:induction false} RetentionIsSaid(es: seq<Element>)
    ensures AddAll(es).Some? <==> forall i :: 0 <= i < |es| ==> ReadableRetention(es[i])
    ensures AddAll(es).Some? ==> RetentionSaid(es, AddAll(es).value)
  {
    if es != [] {
      var before, last := es[..|es| - 1], es[|es| - 1];
      assert es == before + [last];
      RetentionIsSaid(before);
      if AddAll(before).Some? { RetentionStep(before, AddAll(before).value, last); }
    }
  }

  lemma {:induction false} LastNamed(es: seq<Element>, name: string) returns (i: nat)
    requires Named(es, name)
    ensures i < |es| && Name(es[i]) == name && LastOfName(es, i)
  {
    i := |es| - 1;
    if Name(es[i]) != name {
      var before, last := es[..i], es[i];
      assert es == before + [last];
      NamedLonger(before, last, name);
      i := LastNamed(before, name);
      LastLonger(before, last, i);
    }
  }

  lemma SaidOnce(es: seq<Element>, r: Retention, r': Retention)
    requires RetentionSaid(es, r) && RetentionSaid(es, r')
    ensures r == r'
  {
    if Named(es, "Mode") {
      var i := LastNamed(es, "Mode");
      assert SaysRetention(r, es[i]) && SaysRetention(r', es[i]);
    }
    if Named(es, "Days") {
      var i := LastNamed(es, "Days");
      assert SaysRetention(r, es[i]) && SaysRetention(r', es[i]);
    }
    if Named(es, "Years") {
      var i := LastNamed(es, "Years");
      assert SaysRetention(r, es[i]) && SaysRetention(r', es[i]);
    }
  }

  /** A default retention is what its children say together, if that is a mode and exactly one positive period. */
  lemma DefaultIsSaid(e: Element, r: Retention)
    ensures DefaultRetention(e) == Some(r) <==>
      && RetentionSaid(e.children, r)
      && r.mode.Some? && ((r.days.Some? && r.days.value > 0 && r.years.None?) || (r.days.None? && r.years.Some? && r.years.value > 0))
  {
    RetentionIsSaid(e.children);
    if RetentionSaid(e.children, r) && AddAll(e.children).Some? { SaidOnce(e.children, r, AddAll(e.children).value); }
  }

  ghost predicate ReadableElement(e: Element) {
    || (Name(e) == "ObjectLockEnabled" && !NoText(e) && Stripped(e.text.value) == ENABLED)
    || (Name(e) == "Rule" && |e.children| == 1 && Name(e.children[0]) == "DefaultRetention" && DefaultRetention(e.children[0]).Some?)
  }

  ghost predicate RuleSays(e: Element, r: Retention) { |e.children| == 1 && DefaultRetention(e.children[0]) == Some(r) }

  /** What the children of the root say together: Object Lock is enabled if one says so, and the last Rule counts. */
  ghost predicate ElementsSaid(es: seq<Element>, p: Parsed) {
    && (forall i :: 0 <= i < |es| ==> ReadableElement(es[i]) && (Name(es[i]) == "Rule" && LastOfName(es, i) ==> RuleSays(es[i], p.retention)))
    && p.enabled == (if Named(es, "ObjectLockEnabled") then Some(ENABLED) else None)
    && (!Named(es, "Rule") ==> p.retention == NO_RETENTION)
  }

  lemma ElementStep(es: seq<Element>, p: Parsed, e: Element)
    requires ElementsSaid(es, p)
    ensures AddElement(p, e).Some? <==> ReadableElement(e)
    ensures AddElement(p, e).Some? ==> ElementsSaid(es + [e], AddElement(p, e).value)
  {
    var all := es + [e];
    NamedLonger(es, e, "ObjectLockEnabled");
    NamedLonger(es, e, "Rule");
    if AddElement(p, e).Some? {
      var p' := AddElement(p, e).value;
      forall i | 0 <= i < |all|
        ensures ReadableElement(all[i]) && (Name(all[i]) == "Rule" && LastOfName(all, i) ==> RuleSays(all[i], p'.retention))
      {
        if i < |es| {
          assert all[i] == es[i];
          LastLonger(es, e, i);
        }
      }
    }
  }

  lemma {:induction false} ElementsAreSaid(es: seq<Element>)
    ensures AddElements(es).Some? <==> forall i :: 0 <= i < |es| ==> ReadableElement(es[i])
    ensures AddElements(es).Some? ==> ElementsSaid(es, AddElements(es).value)
  {
    if es != [] {
      var before, last := es[..|es| - 1], es[|es| - 1];
      assert es == before + [last];
      ElementsAreSaid(before);
      if AddElements(before).Some? { ElementStep(before, AddElements(before).value, last); }
    }
  }

  /** A document is read exactly when its root is a configuration whose children can each be read, in any order; and then
      as what they say together. */
  lemma DocumentIsSaid(root: Element)
    ensures Parse(root).Some? <==> Name(root) == "ObjectLockConfiguration" && forall i :: 0 <= i < |root.children| ==> ReadableElement(root.children[i])
    ensures Parse(root).Some? ==> ElementsSaid(root.children, Parse(root).value)
  {
    ElementsAreSaid(root.children);
  }

  // ---------- namespaces ----------

  /** The tree with every tag in a namespace, as the XML library hands it over. */
  function Qualified(ns: string, e: Element): Element {
    Element("{" + ns + "}" + e.tag, e.text, QualifiedAll(ns, e.children))
  }

  function QualifiedAll(ns: string, es: seq<Element>): (r: seq<Element>)
    ensures |r| == |es| && forall i :: 0 <= i < |r| ==> r[i] == Qualified(ns, es[i])
  {
    if es == [] then [] else [Qualified(ns, es[0])] + QualifiedAll(ns, es[1..])
  }

  lemma {:induction false} NamespaceStripped(space: string, tag: string)
    ensures StripElement(space + "}" + tag) == StripElement(tag)
  {
    var all := space + "}" + tag;
    if tag != "" {
      assert all[..|all| - 1] == space + "}" + tag[..|tag| - 1];
      NamespaceStripped(space, tag[..|tag| - 1]);
    }
  }

  lemma QualifiedTag(ns: string, e: Element)
    ensures StripElement(Qualified(ns, e).tag) == StripElement(e.tag)
  {
    NamespaceStripped("{" + ns, e.tag);
  }

  lemma QualifiedPrefix(ns: string, es: seq<Element>)
    requires es != []
    ensures QualifiedAll(ns, es)[..|es| - 1] == QualifiedAll(ns, es[..|es| - 1])
  {
  }

  lemma RetentionChildIgnores(ns: string, r: Retention, e: Element)
    ensures AddRetention(r, Qualified(ns, e)) == AddRetention(r, e)
  {
    QualifiedTag(ns, e);
  }

  lemma {:induction false} RetentionIgnoresNamespace(ns: string, es: seq<Element>)
    ensures AddAll(QualifiedAll(ns, es)) == AddAll(es)
  {
    hide AddRetention, Qualified;
    if es != [] {
      QualifiedPrefix(ns, es);
      RetentionIgnoresNamespace(ns, es[..|es| - 1]);
      if r :| AddAll(es[..|es| - 1]) == Some(r) { RetentionChildIgnores(ns, r, es[|es| - 1]); }
    }
  }

  lemma ElementIgnoresNamespace(ns: string, p: Parsed, e: Element)
    ensures AddElement(p, Qualified(ns, e)) == AddElement(p, e)
  {
    QualifiedTag(ns, e);
    if |e.children| == 1 {
      QualifiedTag(ns, e.children[0]);
      RetentionIgnoresNamespace(ns, e.children[0].children);
    }
  }

  lemma {:induction false} ElementsIgnoreNamespace(ns: string, es: seq<Element>)
    ensures AddElements(QualifiedAll(ns, es)) == AddElements(es)
  {
    hide AddElement, Qualified;
    if es != [] {
      QualifiedPrefix(ns, es);
      ElementsIgnoreNamespace(ns, es[..|es| - 1]);
      if p :| AddElements(es[..|es| - 1]) == Some(p) { ElementIgnoresNamespace(ns, p, es[|es| - 1]); }
    }
  }

  /** A document means the same in any namespace as in none; so what it says is read in any. */
  lemma ParserIgnoresNamespace(ns: string, root: Element)
    ensures Parse(Qualified(ns, root)) == Parse(root)
  {
    QualifiedTag(ns, root);
    ElementsIgnoreNamespace(ns, root.children);
  }

  lemma QualifiedDocumentReadsBack(ns: string, p: Parsed)
    requires LetThrough(p)
    ensures Parse(Qualified(ns, Document(p))) == Some(p)
  {
    ParserIgnoresNamespace(ns, Document(p));
    DocumentReadsBack(p);
  }

  /** The parser lets a configuration through exactly when it enables or says nothing, and has no default retention
      or a whole one. */
  lemma ParserLetsThrough(p: Parsed)
    ensures LetThrough(p) <==> exists root :: Parse(root) == Some(p)
  {
    if LetThrough(p) { DocumentReadsBack(p); }
    forall root | Parse(root) == Some(p) ensures LetThrough(p) {
      ElementsLetThrough(root.children);
    }
  }
}
