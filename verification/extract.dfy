/** `clean_json_text` (agents/llm_service.py): pulls the JSON part out of an
    oracle reply, trying a fenced ```json block, then the span from the first
    `{` to the last `}`, then the whole trimmed text. */
module Extract {
  import opened Wrappers
  import opened Text

  const JsonFence: string := "```json"
  const Fence: string := "```"

  /** Tier 1, `re.search(r"```json\s*(.*?)```", text, re.DOTALL)`: the first
      ```json marker and the nearest ``` after it. The `\s*` only moves the
      start of the group over whitespace, which the final strip removes
      anyway. */
  function FencedBlock(text: string): (r: Option<string>)
    ensures r.Some? <==> exists i, k :: FenceMatchAt(text, i, k)
    ensures r.Some? ==> r.value == [] || (!IsSpace(r.value[0]) && !IsSpace(r.value[|r.value| - 1]))
  {
    match FindFrom(text, JsonFence, 0)
    case None => None
    case Some(i) =>
      match FindFrom(text, Fence, i + |JsonFence|)
      case None =>
        assert forall i', k' :: !FenceMatchAt(text, i', k');
        None
      case Some(k) =>
        assert FenceMatchAt(text, i, k);
        Some(Strip(text[i + |JsonFence|..k]))
  }

  /** Tier 2, `re.search(r"\{.*\}", text, re.DOTALL)`: greedy, so it runs from
      the first `{` to the LAST `}`; it is not a balanced-brace scan. */
  function BraceSpan(text: string): (r: Option<string>)
    ensures r.Some? ==> BraceWrapped(r.value)
  {
    var f := FindFirst(text, '{');
    var l := FindLast(text, '}');
    if f.Some? && l.Some? && f.value < l.value then
      var t := text[f.value..l.value + 1];
      assert BraceWrapped(t) by {
        assert t[0] == text[f.value] && t[|t| - 1] == text[l.value];
      }
      StripOfTrimmed(t);
      Some(Strip(t))
    else
      None
  }

  /** Tier 2 applies exactly when some `{` comes before some `}`. */
  lemma BraceSpanIff(text: string)
    ensures BraceSpan(text).Some? <==> exists i, k :: BracePair(text, i, k)
  {
    var f := FindFirst(text, '{');
    var l := FindLast(text, '}');
    if f.Some? && l.Some? && f.value < l.value {
      assert BracePair(text, f.value, l.value);
    } else {
      NoBracePair(text);
    }
  }

  /** Text that opens with `{` and closes with `}`. */
  predicate BraceWrapped(s: string) {
    |s| >= 2 && s[0] == '{' && s[|s| - 1] == '}'
  }

  /** A `{` at `i` and a later `}` at `k`. */
  ghost predicate BracePair(text: string, i: int, k: int) {
    0 <= i < k < |text| && text[i] == '{' && text[k] == '}'
  }

  /** Without a `{` before the last `}` there is no `{`…`}` pair at all. */
  lemma NoBracePair(text: string)
    requires !(FindFirst(text, '{').Some? && FindLast(text, '}').Some? &&
               FindFirst(text, '{').value < FindLast(text, '}').value)
    ensures forall i, k :: !BracePair(text, i, k)
  {
  }


  /** The extracted text is no longer than the reply and never starts or
      ends with white space. */
  function CleanJsonText(text: string): (r: string)
    ensures r == [] || (!IsSpace(r[0]) && !IsSpace(r[|r| - 1]))
    ensures |r| <= |text|
  {
    match FencedBlock(text)
    case Some(r) => r
    case None =>
      match BraceSpan(text)
      case Some(r) => r
      case None => Strip(text)
  }

  ghost predicate IsSubstringOf(r: string, text: string) {
    exists a, b :: 0 <= a <= b <= |text| && r == text[a..b]
  }

  lemma StripOfSlice(text: string, lo: nat, hi: nat)
    requires lo <= hi <= |text|
    ensures IsSubstringOf(Strip(text[lo..hi]), text)
  {
    var s := text[lo..hi];
    var a, b := StripCut(s);
    SliceOfSlice(text, lo, hi, a, b);
  }

  lemma SliceOfSlice(text: string, lo: nat, hi: nat, a: nat, b: nat)
    requires lo <= hi <= |text| && a <= b <= hi - lo
    ensures text[lo..hi][a..b] == text[lo + a..lo + b]
    ensures IsSubstringOf(text[lo..hi][a..b], text)
  {
    var u := text[lo..hi][a..b];
    var v := text[lo + a..lo + b];
    assert |u| == |v|;
    forall j | 0 <= j < |u|
      ensures u[j] == v[j]
    {
      assert u[j] == text[lo + a + j];
    }
    assert u == v;
  }

  /** Whatever tier applies, the extracted text is a contiguous piece of the reply. */
  lemma ExtractIsSubstring(text: string)
    ensures IsSubstringOf(CleanJsonText(text), text)
  {
    var lo, hi := ExtractBounds(text);
    StripOfSlice(text, lo, hi);
  }

  /** Every tier strips one slice of the reply. */
  lemma ExtractBounds(text: string) returns (lo: nat, hi: nat)
    ensures lo <= hi <= |text| && CleanJsonText(text) == Strip(text[lo..hi])
  {
    if FencedBlock(text).Some? {
      lo, hi := FencedBounds(text);
    } else if BraceSpan(text).Some? {
      lo, hi := BraceBounds(text);
    } else {
      lo, hi := 0, |text|;
      assert text[lo..hi] == text;
    }
  }

  lemma FencedBounds(text: string) returns (lo: nat, hi: nat)
    requires FencedBlock(text).Some?
    ensures lo <= hi <= |text| && FencedBlock(text) == Some(Strip(text[lo..hi]))
  {
    var i := FindFrom(text, JsonFence, 0).value;
    lo := i + |JsonFence|;
    hi := FindFrom(text, Fence, lo).value;
  }

  lemma BraceBounds(text: string) returns (lo: nat, hi: nat)
    requires BraceSpan(text).Some?
    ensures lo <= hi <= |text| && BraceSpan(text) == Some(Strip(text[lo..hi]))
  {
    lo := FindFirst(text, '{').value;
    hi := FindLast(text, '}').value + 1;
  }

  /** An object text wrapped in a ```json fence, one newline on each side. */
  function Fenced(c: string): string {
    JsonFence + "\n" + c + "\n" + Fence
  }

  /** The fenced pattern matches with its marker at `i` and its closing ``` at `k`. */
  ghost predicate FenceMatchAt(text: string, i: int, k: int) {
    OccursAt(text, JsonFence, i) && i + |JsonFence| <= k && OccursAt(text, Fence, k)
  }

  /** Tier 1 agrees with the regular expression: the leftmost match start,
      and for it the nearest closing fence (the lazy `.*?`). */
  lemma FencedTierIsLeftmostLazy(text: string, i: nat, k: nat)
    requires FenceMatchAt(text, i, k)
    requires forall i', k' :: FenceMatchAt(text, i', k') ==> i <= i'
    requires forall k' :: i + |JsonFence| <= k' < k ==> !OccursAt(text, Fence, k')
    ensures CleanJsonText(text) == Strip(text[i + |JsonFence|..k])
  {
    var r0 := FindFrom(text, JsonFence, 0);
    assert r0.Some?;
    var i0 := r0.value;
    assert i0 <= i;
    assert FenceMatchAt(text, i0, k);
    assert i0 == i;
    var r1 := FindFrom(text, Fence, i + |JsonFence|);
    assert r1.Some?;
    assert r1.value == k;
    assert FencedBlock(text) == Some(Strip(text[i + |JsonFence|..k]));
  }

  /** When no fenced block matches, tier 2 takes the first `{` through the last `}`. */
  lemma BraceTierIsGreedy(text: string, i: nat, k: nat)
    requires forall i', k' :: !FenceMatchAt(text, i', k')
    requires i < k < |text| && text[i] == '{' && text[k] == '}'
    requires forall j :: 0 <= j < i ==> text[j] != '{'
    requires forall j :: k < j < |text| ==> text[j] != '}'
    ensures CleanJsonText(text) == text[i..k + 1]
  {
    NoFencedBlock(text);
    var f := FindFirst(text, '{');
    assert f == Some(i);
    var l := FindLast(text, '}');
    assert l == Some(k);
    StripOfTrimmed(text[i..k + 1]);
    assert BraceSpan(text) == Some(text[i..k + 1]);
  }

  /** With neither a fenced block nor a `{` followed by a `}`, the reply is only trimmed. */
  lemma PlainTier(text: string)
    requires forall i', k' :: !FenceMatchAt(text, i', k')
    requires forall i, k :: 0 <= i < k < |text| && text[i] == '{' ==> text[k] != '}'
    ensures CleanJsonText(text) == Strip(text)
  {
    NoFencedBlock(text);
    var f := FindFirst(text, '{');
    if f.Some? {
      var l := FindLast(text, '}');
      if l.Some? {
        assert !(f.value < l.value);
      }
    }
    assert BraceSpan(text).None?;
  }

  lemma NoFencedBlock(text: string)
    requires forall i', k' :: !FenceMatchAt(text, i', k')
    ensures FencedBlock(text).None?
  {
  }

  /** A JSON object text as the oracle is asked to produce it: braces at both
      ends and no ``` inside. */
  ghost predicate IsObjectText(c: string) {
    |c| >= 2 && c[0] == '{' && c[|c| - 1] == '}' && forall j :: !OccursAt(c, Fence, j)
  }

  /** Text that cannot take part in a match: no braces and no backticks. */
  ghost predicate IsPlainProse(s: string) {
    forall j :: 0 <= j < |s| ==> s[j] != '{' && s[j] != '}' && s[j] != '`'
  }

  /** The same object text is extracted from a fenced block, from the bare
      text and from the text surrounded by prose: the three tiers agree. */
  lemma {:induction false} TiersAgree(c: string, pre: string, post: string)
    requires IsObjectText(c)
    requires IsPlainProse(pre) && IsPlainProse(post)
    ensures CleanJsonText(Fenced(c)) == c
    ensures CleanJsonText(c) == c
    ensures CleanJsonText(pre + c + post) == c
  {
    FencedRoundTrip(c);
    SurroundedRoundTrip(c, pre, post);
    BareRoundTrip(c);
  }

  lemma BareRoundTrip(c: string)
    requires IsObjectText(c)
    ensures CleanJsonText(c) == c
  {
    SurroundedRoundTrip(c, [], []);
    assert [] + c + [] == c;
  }

  /** No closing fence sits inside the wrapped object text or its two newlines. */
  lemma NoInnerFence(c: string, t: string)
    requires IsObjectText(c)
    requires t == Fenced(c)
    ensures forall k' :: 7 <= k' < |c| + 9 ==> !OccursAt(t, Fence, k')
  {
    var n := |c|;
    forall k' | 7 <= k' < n + 9
      ensures !OccursAt(t, Fence, k')
    {
      if k' == 7 || k' == n + 8 {
        assert t[k'] == '\n';
        assert t[k'..k' + 3][0] != '`';
      } else if k' + 3 <= n + 8 {
        assert !OccursAt(c, Fence, k' - 8);
        assert c[k' - 8..k' - 5] == t[k'..k' + 3];
      } else {
        assert t[n + 8] == '\n';
        assert t[k'..k' + 3][n + 8 - k'] != '`';
      }
    }
  }

  /** Stripping the two newlines around an object text gives the object text back. */
  lemma StripNewlines(c: string)
    requires IsObjectText(c)
    ensures Strip("\n" + c + "\n") == c
  {
    var inner := "\n" + c + "\n";
    assert StripStart(inner) == c + "\n" by {
      assert inner[1..] == c + "\n";
    }
    assert StripEnd(c + "\n") == c by {
      assert (c + "\n")[..|c|] == c;
    }
  }

  lemma FencedRoundTrip(c: string)
    requires IsObjectText(c)
    ensures CleanJsonText(Fenced(c)) == c
  {
    FencedTier(c);
    StripNewlines(c);
  }

  /** A fenced reply is read by the first tier: its inner text, stripped. */
  lemma FencedTier(c: string)
    requires IsObjectText(c)
    ensures CleanJsonText(Fenced(c)) == Strip("\n" + c + "\n")
  {
    var t := Fenced(c);
    FencedParts(c);
    NoInnerFence(c, t);
    FencedTierIsLeftmostLazy(t, 0, |c| + 9);
  }

  /** Where the marker, the object text and the closing fence sit in a fenced reply. */
  lemma FencedParts(c: string)
    ensures |Fenced(c)| == |c| + 12
    ensures FenceMatchAt(Fenced(c), 0, |c| + 9)
    ensures Fenced(c)[7..|c| + 9] == "\n" + c + "\n"
  {
    var inner := "\n" + c + "\n";
    var t := Fenced(c);
    assert t == JsonFence + inner + Fence;
    assert t[..7] == JsonFence;
    assert t[|c| + 9..|c| + 12] == Fence;
    assert t[7..|c| + 9] == inner;
  }

  lemma SurroundedRoundTrip(c: string, pre: string, post: string)
    requires IsObjectText(c)
    requires IsPlainProse(pre) && IsPlainProse(post)
    ensures CleanJsonText(pre + c + post) == c
  {
    var t := pre + c + post;
    var p := |pre|;
    var n := |c|;
    forall j | 0 <= j && j + 3 <= |t|
      ensures !OccursAt(t, Fence, j)
    {
      if j < p {
        assert t[j] == pre[j] && pre[j] != '`';
        assert t[j..j + 3][0] == t[j];
      } else if j + 3 > p + n {
        assert t[j + 2] == post[j + 2 - p - n] && post[j + 2 - p - n] != '`';
        assert t[j..j + 3][2] == t[j + 2];
      } else {
        assert !OccursAt(c, Fence, j - p);
        assert c[j - p..j - p + 3] == t[j..j + 3];
      }
    }
    assert forall i', k' :: !FenceMatchAt(t, i', k');
    forall j | 0 <= j < p
      ensures t[j] != '{'
    {
      assert t[j] == pre[j];
    }
    forall j | p + n - 1 < j < |t|
      ensures t[j] != '}'
    {
      assert t[j] == post[j - p - n];
    }
    assert t[p] == '{' && t[p + n - 1] == '}';
    BraceTierIsGreedy(t, p, p + n - 1);
    assert t[p..p + n] == c;
  }

  /** Tier 2 is greedy, not a balanced-brace scan: two objects separated by
      prose come back as ONE span, from the first object's `{` to the second
      object's `}`, rather than as the first object alone. */
  lemma GreedyAcrossObjects(a: string, mid: string, b: string)
    requires IsObjectText(a) && IsObjectText(b) && IsPlainProse(mid)
    ensures CleanJsonText(a + mid + b) == a + mid + b
  {
    var t := a + mid + b;
    var m := |a| + |mid|;
    forall j | 0 <= j && j + 3 <= |t|
      ensures !OccursAt(t, Fence, j)
    {
      if j + 3 <= |a| {
        assert !OccursAt(a, Fence, j);
        assert t[j..j + 3] == a[j..j + 3];
      } else if j >= m {
        assert !OccursAt(b, Fence, j - m);
        assert t[j..j + 3] == b[j - m..j - m + 3];
      } else if j <= |a| - 1 {
        assert t[|a| - 1] == '}';
        assert t[j..j + 3][|a| - 1 - j] == '}';
      } else {
        assert t[j] == mid[j - |a|];
        assert t[j..j + 3][0] == mid[j - |a|];
      }
    }
    assert forall i', k' :: !FenceMatchAt(t, i', k');
    assert t[0] == '{' && t[|t| - 1] == '}';
    BraceTierIsGreedy(t, 0, |t| - 1);
    assert t[0..|t|] == t;
  }
}
