/**
 * The client's CAP/RSS parser `parseLiveCAPData`: from a parsed document to at most five alert
 * records in document order, with fixed defaults and a fixed "no active alerts" placeholder.
 *
 * The document is an abstract element tree. `FindAll` is the pre-order, name-matched search that
 * stands for `querySelectorAll` and `getElementsByTagName`. Parsing the markup text itself and
 * formatting a date are left to two parameters: `dom` (yielding `None` where the parser throws)
 * and `fmt` (the locale time formatter).
 */
module CapParser {
  import opened JsValues

  /** A node of the parsed document. */
  datatype Node = Element(name: string, children: seq<Node>) | Text(text: string)

  /** One record of the alert list the dashboard renders; `kind` is the `type` field, absent on the placeholder. */
  datatype AlertRecord = AlertRecord(id: string, time: string, msg: string, kind: Option<string>)

  /** The record shown when the document has no `item` element. */
  const NoAlertsRecord: AlertRecord := AlertRecord("none", "--", "No active alerts", None)

  const DefaultMessage: string := "Disaster Update"
  const DefaultTime: string := "Recent"

  /** At most this many items are turned into records. */
  const MaxAlerts: nat := 5

  /** The text of the text nodes in `ns`, concatenated in order; elements contribute nothing. */
  function Texts(ns: seq<Node>): string
  {
    if ns == [] then "" else (if ns[0].Text? then ns[0].text else "") + Texts(ns[1..])
  }

  lemma {:induction false} TextsConcat(a: seq<Node>, b: seq<Node>)
    ensures Texts(a + b) == Texts(a) + Texts(b)
  {
    if a == [] {
      assert a + b == b;
    } else {
      assert (a + b)[1..] == a[1..] + b;
      TextsConcat(a[1..], b);
    }
  }

  /** `textContent`: the text of every text node in the tree, in tree order. */
  function TextContent(n: Node): (r: string)
    ensures r == Texts(PreOrder(n))
  {
    match n
    case Text(t) => t
    case Element(_, children) =>
      TextsConcat([n], PreOrderAll(children));
      TextContentAll(children)
  }

  /** The concatenated `textContent` of the trees `ns`: their text nodes in tree order. */
  function TextContentAll(ns: seq<Node>): (r: string)
    ensures r == Texts(PreOrderAll(ns))
  {
    if ns == [] then ""
    else
      TextsConcat(PreOrder(ns[0]), PreOrderAll(ns[1..]));
      TextContent(ns[0]) + TextContentAll(ns[1..])
  }

  /** The nodes of a tree in pre-order, the tree's root first. */
  function PreOrder(n: Node): seq<Node>
  {
    match n
    case Text(_) => [n]
    case Element(_, children) => [n] + PreOrderAll(children)
  }

  function PreOrderAll(ns: seq<Node>): seq<Node>
  {
    if ns == [] then [] else PreOrder(ns[0]) + PreOrderAll(ns[1..])
  }

  /** The elements of `ns` named `name`, in their order. */
  function Named(ns: seq<Node>, name: string): seq<Node>
  {
    if ns == [] then []
    else if ns[0].Element? && ns[0].name == name then [ns[0]] + Named(ns[1..], name)
    else Named(ns[1..], name)
  }

  /** The elements named `name` in the tree rooted at `n`, the root included, in pre-order. */
  function FindAll(n: Node, name: string): (r: seq<Node>)
    ensures forall e :: e in r ==> e.Element? && e.name == name
  {
    match n
    case Text(_) => []
    case Element(tag, children) =>
      (if tag == name then [n] else []) + FindAllIn(children, name)
  }

  /** The elements named `name` among the trees `ns` and their descendants, in pre-order. */
  function FindAllIn(ns: seq<Node>, name: string): (r: seq<Node>)
    ensures forall e :: e in r ==> e.Element? && e.name == name
  {
    if ns == [] then [] else FindAll(ns[0], name) + FindAllIn(ns[1..], name)
  }

  lemma {:induction false} NamedConcat(a: seq<Node>, b: seq<Node>, name: string)
    ensures Named(a + b, name) == Named(a, name) + Named(b, name)
  {
    if a == [] {
      assert a + b == b;
    } else {
      assert (a + b)[1..] == a[1..] + b;
      NamedConcat(a[1..], b, name);
    }
  }

  /** The search is exactly the pre-order walk filtered by name. */
  lemma {:induction false} FindAllIsNamedPreOrder(n: Node, name: string)
    ensures FindAll(n, name) == Named(PreOrder(n), name)
  {
    match n
    case Text(_) =>
    case Element(tag, children) =>
      FindAllInIsNamedPreOrder(children, name);
      NamedConcat([n], PreOrderAll(children), name);
  }

  lemma {:induction false} FindAllInIsNamedPreOrder(ns: seq<Node>, name: string)
    ensures FindAllIn(ns, name) == Named(PreOrderAll(ns), name)
  {
    if ns != [] {
      FindAllIsNamedPreOrder(ns[0], name);
      FindAllInIsNamedPreOrder(ns[1..], name);
      NamedConcat(PreOrder(ns[0]), PreOrderAll(ns[1..]), name);
    }
  }

  /** The decimal digits of `n`, as JavaScript's template literal writes a number. */
  function DecimalString(n: nat): (s: string)
    ensures |s| >= 1
    ensures forall i :: 0 <= i < |s| ==> '0' <= s[i] <= '9'
  {
    if n < 10 then [Digit(n)] else DecimalString(n / 10) + [Digit(n % 10)]
  }

  /** The character of a decimal digit. */
  function Digit(d: nat): (c: char)
    requires d < 10
    ensures '0' <= c <= '9' && c as int - '0' as int == d
  {
    "0123456789"[d]
  }

  /** The number a string of decimal digits spells, most significant digit first. */
  function DigitsValue(s: string): nat
    requires forall i :: 0 <= i < |s| ==> '0' <= s[i] <= '9'
  {
    if s == [] then 0 else DigitsValue(s[..|s| - 1]) * 10 + (s[|s| - 1] as int - '0' as int)
  }

  /** The digits of `DecimalString(n)` spell `n`. */
  lemma {:induction false} DecimalStringValue(n: nat)
    ensures DigitsValue(DecimalString(n)) == n
  {
    var s := DecimalString(n);
    if n >= 10 {
      assert s[..|s| - 1] == DecimalString(n / 10);
      DecimalStringValue(n / 10);
    }
  }

  /** Distinct indices give distinct decimal strings. */
  lemma DecimalStringInjective(a: nat, b: nat)
    requires DecimalString(a) == DecimalString(b)
    ensures a == b
  {
    DecimalStringValue(a);
    DecimalStringValue(b);
  }

  /** The children of a node; a text node has none. */
  function Children(n: Node): seq<Node>
  {
    if n.Element? then n.children else []
  }

  /**
   * `el.getElementsByTagName(tag)[0]?.textContent`: absent exactly when no descendant is named
   * `tag`, otherwise the text content of the first such descendant in document order.
   */
  function FirstText(item: Node, tag: string): (r: Option<string>)
    ensures var named := Named(PreOrderAll(Children(item)), tag);
            (r.None? <==> named == []) && (r.Some? ==> r.value == TextContent(named[0]))
  {
    FindAllInIsNamedPreOrder(Children(item), tag);
    var found := FindAllIn(Children(item), tag);
    if |found| == 0 then None else Some(TextContent(found[0]))
  }

  /** The id of the record built from the item at `index`: `live-<index>`. */
  function LiveId(index: nat): string
  {
    "live-" + DecimalString(index)
  }

  /**
   * The record built from one `item` element at position `index`: an `alert` with id `live-<index>`,
   * never an empty message, and the time "Recent" whenever the item has no non-empty `pubDate`.
   */
  function ItemRecord(item: Node, index: nat, fmt: string -> string): (r: AlertRecord)
    ensures r.kind == Some("alert") && "live-" <= r.id && r.msg != ""
    ensures !Truthy(FirstText(item, "pubDate")) ==> r.time == "Recent"
  {
    var title := FirstText(item, "title");
    var pubDate := FirstText(item, "pubDate");
    AlertRecord(
      LiveId(index),
      if Truthy(pubDate) then fmt(pubDate.value) else DefaultTime,
      if Truthy(title) then title.value else DefaultMessage,
      Some("alert"))
  }

  /** The alert list of a parsed document: the first five `item` elements as records, or the placeholder. */
  function ParseDocument(doc: Node, fmt: string -> string): (r: seq<AlertRecord>)
    ensures 1 <= |r| <= MaxAlerts
    ensures var items := FindAll(doc, "item");
            if |items| == 0 then r == [NoAlertsRecord]
            else |r| == (if |items| < MaxAlerts then |items| else MaxAlerts) &&
                 forall i :: 0 <= i < |r| ==> r[i] == ItemRecord(items[i], i, fmt)
  {
    var items := FindAll(doc, "item");
    if |items| == 0 then [NoAlertsRecord]
    else
      var shown := if |items| < MaxAlerts then items else items[..MaxAlerts];
      seq(|shown|, i requires 0 <= i < |shown| => ItemRecord(shown[i], i, fmt))
  }

  /**
   * `parseLiveCAPData`: `None` (the source's `null`) exactly when parsing the text throws, never
   * a partial list; otherwise the whole alert list of the parsed document, which is never empty.
   */
  function ParseLiveCapData(xml: string, dom: string -> Option<Node>, fmt: string -> string): (r: Option<seq<AlertRecord>>)
    ensures r.None? <==> dom(xml).None?
    ensures r.Some? ==> 1 <= |r.value| <= MaxAlerts
    ensures dom(xml).Some? ==> r == Some(ParseDocument(dom(xml).value, fmt))
  {
    match dom(xml)
    case None => None
    case Some(doc) => Some(ParseDocument(doc, fmt))
  }

  /** A document with no `item` element parses to exactly the placeholder record. */
  lemma NoItemsGivesPlaceholder(doc: Node, fmt: string -> string)
    requires FindAll(doc, "item") == []
    ensures ParseDocument(doc, fmt) == [AlertRecord("none", "--", "No active alerts", None)]
  {
  }

  /**
   * For a document with items, record `i` is built from the `i`-th item in document order:
   * id `live-i`, type `alert`, the title or "Disaster Update", the formatted date or "Recent".
   */
  lemma ItemsGiveRecordsInOrder(doc: Node, fmt: string -> string, i: nat)
    requires |FindAll(doc, "item")| > 0
    requires i < |ParseDocument(doc, fmt)|
    ensures var item := FindAll(doc, "item")[i];
            var r := ParseDocument(doc, fmt)[i];
            var title := FirstText(item, "title");
            var pubDate := FirstText(item, "pubDate");
            r.id == "live-" + DecimalString(i) && r.kind == Some("alert") &&
            r.msg == (if Truthy(title) then title.value else "Disaster Update") &&
            r.time == (if Truthy(pubDate) then fmt(pubDate.value) else "Recent")
  {
  }

  /** Every parsed record has a non-empty message. */
  lemma MessagesAreNonEmpty(doc: Node, fmt: string -> string)
    ensures forall r :: r in ParseDocument(doc, fmt) ==> r.msg != ""
  {
  }

  /** The records of one list have pairwise distinct ids (the dashboard keys its rows by them). */
  lemma IdsAreDistinct(doc: Node, fmt: string -> string, i: nat, j: nat)
    requires i < j < |ParseDocument(doc, fmt)|
    ensures ParseDocument(doc, fmt)[i].id != ParseDocument(doc, fmt)[j].id
  {
    var rs := ParseDocument(doc, fmt);
    if rs[i].id == rs[j].id {
      assert rs[i].id == LiveId(i) && rs[j].id == LiveId(j);
      assert DecimalString(i) == LiveId(i)[5..] == LiveId(j)[5..] == DecimalString(j);
      DecimalStringInjective(i, j);
    }
  }

  /** A parsed record's id is `none` or starts with `live-`. */
  lemma ParsedIds(doc: Node, fmt: string -> string)
    ensures forall r :: r in ParseDocument(doc, fmt) ==> r.id == "none" || "live-" <= r.id
  {
  }
}
