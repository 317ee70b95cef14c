/** The CSRF-token side of the scraper, without any I/O: the token filter
    and how it is overridden, what a lookup returns, the `[name="..."]`
    capture that names the form field, and the injection of the token into
    form data. */
module Csrf {
  import opened Base
  import opened Strings
  import opened Arrays

  /** How to find the token: a DOM selector, the attribute holding the token,
      and the form field to send it in (each possibly null). */
  datatype Filter = Filter(filter: Option<string>, attr: Option<string>, name: Option<string>)

  /** The initial filter: all three null. */
  const NoFilter: Filter := Filter(None, None, None)

  /** A filter given as a PHP array: each key absent (None), or present
      with null or a string value (Some(None) / Some(Some(s))). */
  datatype FilterArray = FilterArray(filter: Option<Option<string>>, attr: Option<Option<string>>, name: Option<Option<string>>)

  /** The array an API class starts from: all three keys present, null. */
  const NullFields: FilterArray := FilterArray(Some(None), Some(None), Some(None))

  /** The argument of `setCsrfTokenFilter`: a bare selector string, or an
      array. */
  datatype FilterArg = Selector(selector: string) | Fields(keys: FilterArray)

  /** A field as `array_merge` leaves it: the given value when the key is
      present, the old one otherwise. */
  function Override(prior: Option<string>, given: Option<Option<string>>): Option<string> {
    match given
    case Some(v) => v
    case None => prior
  }

  /** `setCsrfTokenFilter`: a string replaces only the selector; an array is
      merged shallowly, its present keys overriding. */
  function SetFilter(f: Filter, arg: FilterArg): (r: Filter)
    ensures arg.Selector? ==> r == f.(filter := Some(arg.selector))
    ensures arg.Fields? && arg.keys.filter.None? ==> r.filter == f.filter
    ensures arg.Fields? && arg.keys.filter.Some? ==> r.filter == arg.keys.filter.value
    ensures arg.Fields? && arg.keys.attr.None? ==> r.attr == f.attr
    ensures arg.Fields? && arg.keys.attr.Some? ==> r.attr == arg.keys.attr.value
    ensures arg.Fields? && arg.keys.name.None? ==> r.name == f.name
    ensures arg.Fields? && arg.keys.name.Some? ==> r.name == arg.keys.name.value
  {
    match arg
    case Selector(s) => f.(filter := Some(s))
    case Fields(a) =>
      Filter(Override(f.filter, a.filter), Override(f.attr, a.attr), Override(f.name, a.name))
  }

  /** A filter passed as an array with all three keys present. */
  function AsFields(f: Filter): (a: FilterArray)
    ensures forall g :: SetFilter(g, Fields(a)) == f
  {
    FilterArray(Some(f.filter), Some(f.attr), Some(f.name))
  }

  /** The selector an array argument carries (`$filter['filter']`, null
      when the key is missing). */
  function SelectorOf(arg: FilterArg): Option<string> {
    match arg
    case Selector(s) => Some(s)
    case Fields(a) => if a.filter.Some? then a.filter.value else None
  }

  /** A DOM element, reduced to its attributes. */
  datatype Node = Node(attributes: Assoc<string>)

  /** `DOMElement::getAttribute`: the value, or "" when absent. */
  function GetAttribute(n: Node, attr: string): string {
    Get(n.attributes, attr).GetOr("")
  }

  /** What a token lookup returns: the attribute's value, or the node found
      (possibly none). */
  datatype Extracted = AttrValue(value: string) | NodeValue(node: Option<Node>)

  /** The decision in `getCsrfToken`: the attribute value exactly when an
      attribute is configured and a node was found; the node otherwise. */
  function Extract(f: Filter, node: Option<Node>): (r: Extracted)
    ensures r.AttrValue? <==> TruthyOpt(f.attr) && node.Some?
    ensures r.AttrValue? ==> r.value == GetAttribute(node.value, f.attr.value)
    ensures r.NodeValue? ==> r.node == node
  {
    if TruthyOpt(f.attr) && node.Some? then AttrValue(GetAttribute(node.value, f.attr.value))
    else NodeValue(node)
  }

  // ---------------------------------------------------------------------
  // The capture of ~\[name="(.+?)"\]~ (PCRE, no flags: '.' is anything but
  // a line feed, the leftmost match wins, and `+?` takes the shortest run).

  const NameOpen: string := "[name=\""
  const NameClose: string := "\"]"

  /** Reference definition: the pattern matches `s` from `i`, with the
      closing `"]` at `e` (the capture is `s[i + 7..e]`). */
  predicate MatchesAt(s: string, i: int, e: int) {
    && 0 <= i
    && i + 7 < e
    && e + 2 <= |s|
    && s[i..i + 7] == NameOpen
    && s[e..e + 2] == NameClose
    && forall k :: i + 7 <= k < e ==> s[k] != '\n'
  }

  /** The closing `"]` at or after `e`, for a capture that began at `i + 7`
      and has been newline-free up to `e`. */
  function ScanClose(s: string, i: nat, e: nat): (r: Option<nat>)
    requires i + 7 < e <= |s|
    requires s[i..i + 7] == NameOpen
    requires forall k :: i + 7 <= k < e ==> s[k] != '\n'
    requires forall e' :: i + 7 < e' < e ==> !MatchesAt(s, i, e')
    ensures r.Some? ==> MatchesAt(s, i, r.value) && forall e' :: e' < r.value ==> !MatchesAt(s, i, e')
    ensures r.None? ==> forall e' :: !MatchesAt(s, i, e')
    decreases |s| - e
  {
    if e + 2 > |s| then None
    else if s[e..e + 2] == NameClose then Some(e)
    else if s[e] == '\n' then
      assert forall e' :: e' > e ==> !MatchesAt(s, i, e') by {
        assert s[e] == '\n';
      }
      None
    else ScanClose(s, i, e + 1)
  }

  /** The end of the shortest match that starts at `i`, if any. */
  function MatchEndAt(s: string, i: nat): (r: Option<nat>)
    ensures r.Some? ==> MatchesAt(s, i, r.value) && forall e' :: e' < r.value ==> !MatchesAt(s, i, e')
    ensures r.None? ==> forall e' :: !MatchesAt(s, i, e')
  {
    if i + 7 < |s| && s[i..i + 7] == NameOpen && s[i + 7] != '\n' then ScanClose(s, i, i + 8)
    else
      assert forall e' :: !MatchesAt(s, i, e') by {
        if i + 7 < |s| {
          assert s[i + 7] == '\n' || s[i..i + 7] != NameOpen;
        }
      }
      None
  }

  /** The leftmost match starting at or after `i`: its start and end. */
  function FirstMatch(s: string, i: nat): (r: Option<(nat, nat)>)
    ensures r.Some? ==> i <= r.value.0 && MatchesAt(s, r.value.0, r.value.1)
    ensures r.Some? ==> forall e' :: e' < r.value.1 ==> !MatchesAt(s, r.value.0, e')
    ensures r.Some? ==> forall i', e' :: i <= i' < r.value.0 ==> !MatchesAt(s, i', e')
    ensures r.None? ==> forall i', e' :: i <= i' ==> !MatchesAt(s, i', e')
    decreases |s| - i
  {
    if i >= |s| then None
    else
      match MatchEndAt(s, i)
      case Some(e) => Some((i, e))
      case None => FirstMatch(s, i + 1)
  }

  /** `preg_match('~\[name="(.+?)"\]~', $selector, $m)` and `$m[1]`. */
  function FieldNameOf(selector: string): Option<string> {
    match FirstMatch(selector, 0)
    case Some((i, e)) => Some(selector[i + 7..e])
    case None => None
  }

  /** The capture is exactly the leftmost, shortest match of the pattern,
      and there is none only when the pattern matches nowhere. */
  lemma FieldNameIsLeftmostShortest(s: string)
    ensures FieldNameOf(s).None? <==> forall i, e :: !MatchesAt(s, i, e)
    ensures FieldNameOf(s).Some? ==>
              exists i, e :: && MatchesAt(s, i, e)
                             && FieldNameOf(s).value == s[i + 7..e]
                             && (forall i', e' :: 0 <= i' < i ==> !MatchesAt(s, i', e'))
                             && (forall e' :: e' < e ==> !MatchesAt(s, i, e'))
  {
    match FirstMatch(s, 0)
    case Some((i, e)) =>
      assert MatchesAt(s, i, e);
    case None =>
  }

  /** The Laravel selector names the field `_token`. */
  lemma LaravelFieldName()
    ensures FieldNameOf("[name=\"_token\"]") == Some("_token")
  {
    var s := "[name=\"_token\"]";
    assert MatchesAt(s, 0, 13);
    var m := FirstMatch(s, 0);
    assert m.Some? && m.value.0 == 0;
    var e := m.value.1;
    assert e <= 13;
    assert s[8] == 't' && s[9] == 'o' && s[10] == 'k' && s[11] == 'e' && s[12] == 'n';
    assert e == 13;
    assert s[7..13] == "_token";
  }

  // ---------------------------------------------------------------------

  /** `addCsrfTokenToFormData`: with a truthy token, the configured field
      name, or else the name captured from the selector, is set to the
      token; in every other case the data is returned as it was. */
  function AddTokenToFormData(f: Filter, token: Option<string>, postData: Assoc<string>): (r: Assoc<string>)
    ensures !TruthyOpt(token) ==> r == postData
    ensures TruthyOpt(token) && TruthyOpt(f.name) ==> r == Put(postData, f.name.value, token.value)
    ensures TruthyOpt(token) && !TruthyOpt(f.name) && FieldNameOf(OrEmpty(f.filter)).None? ==> r == postData
    ensures TruthyOpt(token) && !TruthyOpt(f.name) && FieldNameOf(OrEmpty(f.filter)).Some? ==>
              r == Put(postData, FieldNameOf(OrEmpty(f.filter)).value, token.value)
  {
    if TruthyOpt(token) then
      if TruthyOpt(f.name) then Put(postData, f.name.value, token.value)
      else
        match FieldNameOf(OrEmpty(f.filter))
        case Some(field) => Put(postData, field, token.value)
        case None => postData
    else postData
  }

  /** The field that receives the token, if any. */
  function TokenField(f: Filter): Option<string> {
    if TruthyOpt(f.name) then f.name else FieldNameOf(OrEmpty(f.filter))
  }

  /** The injection sets exactly one field to the token and leaves every
      other field as it was. */
  lemma InjectionTouchesOneField(f: Filter, token: string, postData: Assoc<string>, k: string)
    requires Truthy(token)
    ensures TokenField(f).None? ==> AddTokenToFormData(f, Some(token), postData) == postData
    ensures TokenField(f).Some? ==> Get(AddTokenToFormData(f, Some(token), postData), TokenField(f).value) == Some(token)
    ensures TokenField(f).Some? && k != TokenField(f).value ==>
              Get(AddTokenToFormData(f, Some(token), postData), k) == Get(postData, k)
  {
    if TokenField(f).Some? {
      PutSpec(postData, TokenField(f).value, token);
    }
  }
}
