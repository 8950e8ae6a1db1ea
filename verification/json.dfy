/** JSON values as `json.loads` returns them, and the two regular
    expressions that cut a JSON text out of an LLM reply: `\{[^}]+\}` for an
    object and `\[.*\]` (dot matching newlines) for an array. */
module Json {
  import opened Wrappers

  /** A decoded JSON value; objects keep their members in order. */
  datatype JsonValue =
    | JNull
    | JBool(b: bool)
    | JNum(n: int)
    | JStr(s: string)
    | JArr(items: seq<JsonValue>)
    | JObj(members: seq<(string, JsonValue)>)

  /** `json.loads`: the decoded value, or `None` where it raises. */
  type Parser = string -> Option<JsonValue>

  /** `key in obj` for a decoded object. */
  predicate HasKey(v: JsonValue, key: string) {
    v.JObj? && exists i :: 0 <= i < |v.members| && v.members[i].0 == key
  }

  /** The first index at or after `from` holding `c`. */
  function FirstFrom(s: string, c: char, from: nat): (r: Option<nat>)
    requires from <= |s|
    ensures r.Some? ==> from <= r.value < |s| && s[r.value] == c
    ensures r.Some? ==> forall k :: from <= k < r.value ==> s[k] != c
    ensures r.None? ==> forall k :: from <= k < |s| ==> s[k] != c
    decreases |s| - from
  {
    if from == |s| then None
    else if s[from] == c then Some(from)
    else FirstFrom(s, c, from + 1)
  }

  /** The last index before `upTo` holding `c`. */
  function LastBefore(s: string, c: char, upTo: nat): (r: Option<nat>)
    requires upTo <= |s|
    ensures r.Some? ==> r.value < upTo && s[r.value] == c
    ensures r.Some? ==> forall k :: r.value < k < upTo ==> s[k] != c
    ensures r.None? ==> forall k :: 0 <= k < upTo ==> s[k] != c
  {
    if upTo == 0 then None
    else if s[upTo - 1] == c then Some(upTo - 1)
    else LastBefore(s, c, upTo - 1)
  }

  // ---------------------------------------------------------------------
  // `\{[^}]+\}`

  /** The object pattern matches `s[i..j + 1]`: an opening brace, at least
      one character that is not a closing brace, and a closing brace. */
  predicate ObjectMatchAt(s: string, i: int, j: int) {
    && 0 <= i && i + 2 <= j < |s|
    && s[i] == '{' && s[j] == '}'
    && forall k :: i < k < j ==> s[k] != '}'
  }

  /** The match `re.search` finds at or after `from`: the leftmost start
      that matches, with its (only possible) end. */
  function ObjectSpanFrom(s: string, from: nat): (r: Option<(nat, nat)>)
    requires from <= |s|
    ensures r.Some? ==> from <= r.value.0 && ObjectMatchAt(s, r.value.0, r.value.1)
    ensures r.Some? ==> forall i, j :: from <= i < r.value.0 ==> !ObjectMatchAt(s, i, j)
    ensures r.None? ==> forall i, j :: from <= i ==> !ObjectMatchAt(s, i, j)
    decreases |s| - from
  {
    if from == |s| then None
    else
      var close := if s[from] == '{' then FirstFrom(s, '}', from + 1) else None;
      if close.Some? && close.value >= from + 2 then Some((from, close.value))
      else
        var rest := ObjectSpanFrom(s, from + 1);
        assert forall j :: !ObjectMatchAt(s, from, j);
        rest
  }

  /** The text handed to `json.loads` by the meta-analysis: the first
      object-looking span, or the whole reply when there is none. */
  function ExtractObject(s: string): (r: string)
    ensures ObjectSpanFrom(s, 0).None? ==> r == s
    ensures ObjectSpanFrom(s, 0).Some? ==>
      var (i, j) := ObjectSpanFrom(s, 0).value;
      r == s[i..j + 1] && r[0] == '{' && r[|r| - 1] == '}'
  {
    match ObjectSpanFrom(s, 0)
    case None => s
    case Some((i, j)) => s[i..j + 1]
  }

  /** The pattern cannot see nesting: a reply whose object holds a nested
      object is cut at the inner closing brace. */
  lemma NestedObjectIsCut()
    ensures ExtractObject("{\"a\":{\"b\":1}}") == "{\"a\":{\"b\":1}"
  {
    var s := "{\"a\":{\"b\":1}}";
    assert ObjectMatchAt(s, 0, 11);
  }

  // ---------------------------------------------------------------------
  // `\[.*\]` with DOTALL

  /** The array pattern can match `s[i..j + 1]`. */
  predicate ArrayMatchAt(s: string, i: int, j: int) {
    0 <= i < j < |s| && s[i] == '[' && s[j] == ']'
  }

  /** The match `re.search` finds: the leftmost start that can match, and
      the greedy, longest end. */
  function ArraySpan(s: string): (r: Option<(nat, nat)>)
    ensures r.Some? ==> ArrayMatchAt(s, r.value.0, r.value.1)
    ensures r.Some? ==> forall i, j :: 0 <= i < r.value.0 ==> !ArrayMatchAt(s, i, j)
    ensures r.Some? ==> forall j :: r.value.1 < j ==> !ArrayMatchAt(s, r.value.0, j)
    ensures r.None? ==> forall i, j :: !ArrayMatchAt(s, i, j)
  {
    var open := FirstFrom(s, '[', 0);
    var close := LastBefore(s, ']', |s|);
    if open.Some? && close.Some? && open.value < close.value then Some((open.value, close.value))
    else None
  }

  /** The text handed to `json.loads` for the example prompts. */
  function ExtractArray(s: string): (r: string)
    ensures ArraySpan(s).None? ==> r == s
    ensures ArraySpan(s).Some? ==>
      var (i, j) := ArraySpan(s).value;
      r == s[i..j + 1] && r[0] == '[' && r[|r| - 1] == ']'
  {
    match ArraySpan(s)
    case None => s
    case Some((i, j)) => s[i..j + 1]
  }

  /** A reply that is a bracketed text with chatter around it is reduced to
      the bracketed part. */
  lemma ArrayAmidChatter(pre: string, body: string, post: string)
    requires forall k :: 0 <= k < |pre| ==> pre[k] != '['
    requires forall k :: 0 <= k < |post| ==> post[k] != ']'
    ensures ExtractArray(pre + "[" + body + "]" + post) == "[" + body + "]"
  {
    var s := pre + "[" + body + "]" + post;
    var i := |pre|;
    var j := |pre| + 1 + |body|;
    assert s[i] == '[' && s[j] == ']';
    assert forall k :: 0 <= k < i ==> s[k] == pre[k];
    assert forall k :: j < k < |s| ==> s[k] == post[k - j - 1];
    assert ArraySpan(s) == Some((i, j));
    assert s[i..j + 1] == "[" + body + "]";
  }
}
