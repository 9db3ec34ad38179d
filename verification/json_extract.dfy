/** `clean_json`: pulls the JSON object out of the model's chatty reply by a
    greedy search for `\{.*\}` (with `.` matching newlines too). */
module JsonExtract {
  import opened Wrappers

  /** What `clean_json` returns when the search finds nothing. */
  const EmptyObjectText: string := "{}"

  /** Index of the first occurrence of `c` in `s`, if any. */
  function FirstIndexOf(s: string, c: char): (r: Option<nat>)
    ensures r.Some? ==> r.value < |s| && s[r.value] == c
    ensures r.Some? ==> forall k :: 0 <= k < r.value ==> s[k] != c
    ensures r.None? ==> forall k :: 0 <= k < |s| ==> s[k] != c
  {
    if |s| == 0 then None
    else if s[0] == c then Some(0)
    else
      match FirstIndexOf(s[1..], c)
      case None => None
      case Some(i) => Some(i + 1)
  }

  /** Index of the last occurrence of `c` in `s`, if any. */
  function LastIndexOf(s: string, c: char): (r: Option<nat>)
    ensures r.Some? ==> r.value < |s| && s[r.value] == c
    ensures r.Some? ==> forall k :: r.value < k < |s| ==> s[k] != c
    ensures r.None? ==> forall k :: 0 <= k < |s| ==> s[k] != c
  {
    if |s| == 0 then None
    else if s[|s| - 1] == c then Some(|s| - 1)
    else LastIndexOf(s[..|s| - 1], c)
  }

  /** Starts with `{` and ends with a `}` at a later position than that `{`. */
  predicate IsBraced(s: string)
  {
    |s| >= 2 && s[0] == '{' && s[|s| - 1] == '}'
  }

  /** `i` is the position of the first `{` of `text`. */
  ghost predicate FirstOpenAt(text: string, i: int)
  {
    0 <= i < |text| && text[i] == '{' && forall k :: 0 <= k < i ==> text[k] != '{'
  }

  /** `j` is the position of the last `}` of `text`. */
  ghost predicate LastCloseAt(text: string, j: int)
  {
    0 <= j < |text| && text[j] == '}' && forall k :: j < k < |text| ==> text[k] != '}'
  }

  /** Some `{` of `text` is followed, later on, by a `}`. */
  ghost predicate HasBracedSpan(text: string)
  {
    exists i, j :: 0 <= i < j < |text| && text[i] == '{' && text[j] == '}'
  }

  /** The reply text handed to `json.loads`: from the first `{` to the last `}`
      when such a span exists, otherwise the literal `{}`. */
  function CleanJson(text: string): (r: string)
    ensures IsBraced(r)
    ensures !HasBracedSpan(text) ==> r == EmptyObjectText
    ensures forall i, j :: FirstOpenAt(text, i) && LastCloseAt(text, j) && i < j ==> r == text[i..j + 1]
  {
    match FirstIndexOf(text, '{')
    case None => EmptyObjectText
    case Some(i) =>
      match LastIndexOf(text, '}')
      case None => EmptyObjectText
      case Some(j) => if i < j then text[i..j + 1] else EmptyObjectText
  }

  /** A span exists exactly when the first `{` precedes the last `}`. */
  lemma BracedSpanEnds(text: string)
    requires HasBracedSpan(text)
    ensures exists i, j :: FirstOpenAt(text, i) && LastCloseAt(text, j) && i < j
  {
    var i0, j0 :| 0 <= i0 < j0 < |text| && text[i0] == '{' && text[j0] == '}';
    var i := FirstIndexOf(text, '{').value;
    var j := LastIndexOf(text, '}').value;
    assert FirstOpenAt(text, i) && LastCloseAt(text, j);
    assert i <= i0 && j0 <= j;
  }

  /** The result is always a substring of the reply unless it is the literal `{}`. */
  lemma CleanJsonIsSubstring(text: string)
    ensures CleanJson(text) == EmptyObjectText
         || exists i, j :: 0 <= i <= j <= |text| && CleanJson(text) == text[i..j]
  {
    if HasBracedSpan(text) {
      BracedSpanEnds(text);
      var i, j :| FirstOpenAt(text, i) && LastCloseAt(text, j) && i < j;
      assert CleanJson(text) == text[i..j + 1];
    }
  }

  // ----- Reference semantics of `re.search(r'\{.*\}', text, re.DOTALL)` -----

  /** `text[p..q]` matches `\{.*\}` when `.` matches every character. */
  ghost predicate RegexMatch(text: string, p: int, q: int)
  {
    0 <= p && p + 2 <= q <= |text| && text[p] == '{' && text[q - 1] == '}'
  }

  /** Some substring of `text` matches the pattern. */
  ghost predicate RegexFinds(text: string)
  {
    exists p, q :: RegexMatch(text, p, q)
  }

  /** The match `re.search` reports: the earliest start at which the pattern
      matches, and at that start the longest match, because the greedy `.*`
      backtracks from the end of the text to the nearest `}`. */
  ghost predicate SearchResult(text: string, p: int, q: int)
  {
    && RegexMatch(text, p, q)
    && (forall p', q' :: RegexMatch(text, p', q') ==> p <= p')
    && (forall q' :: RegexMatch(text, p, q') ==> q' <= q)
  }

  /** The pattern matches somewhere exactly when a braced span exists, and then
      `re.search` has a result. */
  lemma {:induction false} SearchResultExists(text: string)
    ensures RegexFinds(text) <==> HasBracedSpan(text)
    ensures HasBracedSpan(text) ==> exists p, q :: SearchResult(text, p, q)
  {
    if RegexFinds(text) {
      var p, q :| RegexMatch(text, p, q);
      assert 0 <= p < q - 1 < |text| && text[p] == '{' && text[q - 1] == '}';
    }
    if HasBracedSpan(text) {
      var i0, j0 :| 0 <= i0 < j0 < |text| && text[i0] == '{' && text[j0] == '}';
      assert RegexMatch(text, i0, j0 + 1);
      var i := FirstIndexOf(text, '{').value;
      var j := LastIndexOf(text, '}').value;
      assert i <= i0 && j0 <= j;
      assert RegexMatch(text, i, j + 1);
      forall p', q' | RegexMatch(text, p', q') ensures i <= p' {
        assert text[p'] == '{';
      }
      forall q' | RegexMatch(text, i, q') ensures q' <= j + 1 {
        assert text[q' - 1] == '}';
      }
      assert SearchResult(text, i, j + 1);
    }
  }

  /** `clean_json` returns `match.group(0)` when the search succeeds and `{}`
      when it does not: the model agrees with the regex semantics. */
  lemma {:induction false} CleanJsonIsRegexSearch(text: string)
    ensures !RegexFinds(text) ==> CleanJson(text) == EmptyObjectText
    ensures forall p, q :: SearchResult(text, p, q) ==> CleanJson(text) == text[p..q]
  {
    SearchResultExists(text);
    forall p, q | SearchResult(text, p, q) ensures CleanJson(text) == text[p..q] {
      forall k | 0 <= k < p ensures text[k] != '{' {
        assert text[k] == '{' ==> RegexMatch(text, k, q);
      }
      forall k | q - 1 < k < |text| ensures text[k] != '}' {
        assert text[k] == '}' ==> RegexMatch(text, p, k + 1);
      }
      assert FirstOpenAt(text, p) && LastCloseAt(text, q - 1);
    }
  }

  // ----- Properties of the extractor -----

  /** The braced strings are exactly the fixed points of `clean_json`. */
  lemma {:induction false} CleanJsonFixedPoints(s: string)
    ensures CleanJson(s) == s <==> IsBraced(s)
  {
    if IsBraced(s) {
      assert FirstOpenAt(s, 0);
      assert LastCloseAt(s, |s| - 1);
      assert s[0..|s|] == s;
    }
  }

  /** Cleaning twice is cleaning once. */
  lemma {:induction false} CleanJsonIdempotent(text: string)
    ensures CleanJson(CleanJson(text)) == CleanJson(text)
  {
    CleanJsonFixedPoints(CleanJson(text));
  }

  /** Prose around the payload is dropped, provided the prose before it holds
      no `{` and the prose after it holds no `}`. */
  lemma {:induction false} CleanJsonDropsSurroundingProse(pre: string, payload: string, post: string)
    requires forall k :: 0 <= k < |pre| ==> pre[k] != '{'
    requires IsBraced(payload)
    requires forall k :: 0 <= k < |post| ==> post[k] != '}'
    ensures CleanJson(pre + payload + post) == payload
  {
    var t := pre + payload + post;
    var i := |pre|;
    var j := |pre| + |payload| - 1;
    forall k | 0 <= k < i ensures t[k] != '{' {
      assert t[k] == pre[k];
    }
    forall k | j < k < |t| ensures t[k] != '}' {
      assert t[k] == post[k - |pre| - |payload|];
    }
    assert t[i] == payload[0];
    assert t[j] == payload[|payload| - 1];
    assert FirstOpenAt(t, i) && LastCloseAt(t, j);
    assert t[i..j + 1] == payload;
  }

  /** Conversely, the payload comes back exactly only if the prose before it
      holds no `{` and the prose after it holds no `}`. */
  lemma {:induction false} CleanJsonIsolatesOnlyBetweenBraceFreeProse(pre: string, payload: string, post: string)
    requires IsBraced(payload)
    requires CleanJson(pre + payload + post) == payload
    ensures forall k :: 0 <= k < |pre| ==> pre[k] != '{'
    ensures forall k :: 0 <= k < |post| ==> post[k] != '}'
  {
    var t := pre + payload + post;
    var a := |pre|;
    var b := |pre| + |payload| - 1;
    assert t[a] == payload[0] && t[b] == payload[|payload| - 1];
    assert HasBracedSpan(t) by {
      assert 0 <= a < b < |t| && t[a] == '{' && t[b] == '}';
    }
    BracedSpanEnds(t);
    var i, j :| FirstOpenAt(t, i) && LastCloseAt(t, j) && i < j;
    assert i <= a && b <= j;
    assert |t[i..j + 1]| == |payload|;
    assert i == a && j == b;
    forall k | 0 <= k < |pre| ensures pre[k] != '{' {
      assert t[k] == pre[k];
    }
    forall k | 0 <= k < |post| ensures post[k] != '}' {
      assert t[b + 1 + k] == post[k];
    }
  }

  /** The span is greedy: whatever lies between two objects stays in the
      result, so the first object is never isolated. */
  lemma {:induction false} CleanJsonKeepsTextBetweenObjects(first: string, between: string, second: string)
    requires IsBraced(first) && IsBraced(second)
    ensures CleanJson(first + between + second) == first + between + second
  {
    var t := first + between + second;
    assert t[0] == first[0];
    assert t[|t| - 1] == second[|second| - 1];
    CleanJsonFixedPoints(t);
  }

  /** A concrete instance of the greedy span: the prose survives. */
  lemma GreedyExample()
    ensures CleanJson("{\"a\": 1} prose {\"b\": 2}") == "{\"a\": 1} prose {\"b\": 2}"
    ensures CleanJson("{\"a\": 1} prose {\"b\": 2}") != "{\"a\": 1}"
  {
    CleanJsonKeepsTextBetweenObjects("{\"a\": 1}", " prose ", "{\"b\": 2}");
    assert "{\"a\": 1}" + " prose " + "{\"b\": 2}" == "{\"a\": 1} prose {\"b\": 2}";
  }
}
