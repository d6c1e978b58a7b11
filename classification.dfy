/**
 * What the query classifiers share (the OSHA classifier and the Mustang
 * manual classifier hold identical copies of this code): cleaning the
 * model's classification reply of its code fences before JSON parsing, and
 * the three context slots of the RAG prompt.
 */
module Classification {
  import opened Outcomes
  import opened Text

  const JsonFence := "```json"
  const Fence := "```"

  /**
   * `_parse_classification_response` up to `json.loads`: strip, then take the
   * part after the first "```json" cut at the next fence, or else the part
   * between the first two fences, or else the whole stripped reply.
   */
  function CleanedText(reply: string): (t: string)
    ensures IsStripped(t)
  {
    var c := Strip(reply);
    if Contains(c, JsonFence) then Strip(BeforeFirst(SplitSecond(c, JsonFence), Fence))
    else if Contains(c, Fence) then Strip(SplitSecond(c, Fence))
    else c
  }

  /** The class parsed from the cleaned text: `QueryType(**json.loads(text))`. */
  datatype QueryType = QueryType(category: string, confidence: real)

  datatype ClassifierError =
    | ApiError(detail: string)
    | ParseFailed(text: string)
    | InvalidCategory(value: string)
    | RetrieveFailed

  /** The parse step; `parse` stands for `json.loads` and the pydantic check, `None` when either raises. */
  function ParseClassification(reply: string, parse: string -> Option<QueryType>): (r: Result<QueryType, ClassifierError>)
    ensures r.Err? <==> parse(CleanedText(reply)).None?
    ensures r.Err? ==> r.error == ParseFailed(CleanedText(reply))
    ensures r.Ok? ==> r.value == parse(CleanedText(reply)).value
  {
    var t := CleanedText(reply);
    var q := parse(t);
    if q.None? then Err(ParseFailed(t)) else Ok(q.value)
  }

  // ---------------------------------------------------------------------------
  // Properties of the fence rules
  // ---------------------------------------------------------------------------

  /** A fence occurrence, character by character. */
  lemma FenceAt(s: string, m: int)
    ensures OccursAt(s, Fence, m) <==> 0 <= m && m + 3 <= |s| && s[m] == '`' && s[m + 1] == '`' && s[m + 2] == '`'
  {
    if 0 <= m && m + 3 <= |s| {
      assert s[m..m + 3] == [s[m], s[m + 1], s[m + 2]];
    }
  }

  /** Every "```json" starts with a fence. */
  lemma JsonFenceStartsWithFence(s: string, m: int)
    requires OccursAt(s, JsonFence, m)
    ensures OccursAt(s, Fence, m)
  {
    assert s[m..m + 3] == s[m..m + 7][..3];
  }

  /** An occurrence inside an infix is an occurrence in the whole string. */
  lemma InfixOccurrence(s: string, a: nat, b: nat, pat: string, j: int)
    requires a <= b <= |s|
    requires OccursAt(s[a..b], pat, j)
    ensures OccursAt(s, pat, a + j)
  {
    var w := s[a..b][j..j + |pat|];
    assert forall t :: 0 <= t < |pat| ==> w[t] == s[a + j + t];
    assert w == s[a + j..a + j + |pat|];
  }

  /** `strip()` returns an infix. */
  lemma StripIsInfix(s: string) returns (a: nat, b: nat)
    ensures a <= b <= |s| && Strip(s) == s[a..b]
  {
    var l := TrimLeft(s);
    a := |s| - |l|;
    b := a + |TrimRight(l)|;
    assert l == s[a..];
  }

  /** A fence-free string has fence-free infixes. */
  lemma InfixFenceFree(s: string, a: nat, b: nat)
    requires a <= b <= |s| && !Contains(s, Fence)
    ensures !Contains(s[a..b], Fence)
  {
    if Contains(s[a..b], Fence) {
      InfixOccurrence(s, a, b, Fence, Find(s[a..b], Fence).value);
      assert false;
    }
  }

  /** A reply with no fence after stripping is parsed whole. */
  lemma UnfencedParsedWhole(reply: string)
    requires !Contains(Strip(reply), Fence)
    ensures CleanedText(reply) == Strip(reply)
  {
    var c := Strip(reply);
    if Contains(c, JsonFence) {
      JsonFenceStartsWithFence(c, Find(c, JsonFence).value);
      assert false;
    }
  }

  /** Whatever fences the reply had, the text handed to the JSON parser has none. */
  lemma {:induction false} CleanedTextHasNoFence(reply: string)
    requires Contains(Strip(reply), Fence)
    ensures !Contains(CleanedText(reply), Fence)
  {
    var c := Strip(reply);
    var inner := if Contains(c, JsonFence) then BeforeFirst(SplitSecond(c, JsonFence), Fence) else SplitSecond(c, Fence);
    assert !Contains(inner, Fence);
    var a, b := StripIsInfix(inner);
    InfixFenceFree(inner, a, b);
  }

  // ---------------------------------------------------------------------------
  // The round trip: a payload wrapped in a fenced block comes back out
  // ---------------------------------------------------------------------------

  /** The payload on lines of its own: "\n" + p + "\n". */
  function Framed(p: string): string {
    "\n" + p + "\n"
  }

  lemma FramedFenceFree(p: string)
    requires !Contains(p, Fence)
    ensures !Contains(Framed(p), Fence)
  {
    var q := Framed(p);
    if Contains(q, Fence) {
      var m := Find(q, Fence).value;
      FenceAt(q, m);
      assert 1 <= m && m + 3 <= |p| + 1;
      assert q[1..|p| + 1] == p;
      assert q[m..m + 3] == p[m - 1..m + 2];
      assert OccursAt(p, Fence, m - 1);
      assert false;
    }
  }

  /** In `q + "```"` with `q` fence-free and ending in a newline, the only fence is the closing one, and there is no "```json". */
  lemma ClosingFenceOnly(q: string)
    requires !Contains(q, Fence) && |q| > 0 && q[|q| - 1] == '\n'
    ensures Find(q + Fence, Fence) == Some(|q|)
    ensures !Contains(q + Fence, JsonFence)
  {
    var s := q + Fence;
    assert OccursAt(s, Fence, |q|);
    forall m | 0 <= m < |q|
      ensures !OccursAt(s, Fence, m)
    {
      FenceAt(s, m);
      if m + 3 <= |q| {
        assert s[m..m + 3] == q[m..m + 3];
        assert !OccursAt(q, Fence, m);
      } else {
        assert s[|q| - 1] == '\n';
      }
    }
    forall m | 0 <= m && m + |JsonFence| <= |s|
      ensures !OccursAt(s, JsonFence, m)
    {
      assert s[m..m + 3] == q[m..m + 3];
      assert !OccursAt(q, Fence, m);
      assert s[m..m + |JsonFence|][..3] == s[m..m + 3];
    }
  }

  lemma StripFramed(p: string)
    requires IsStripped(p)
    ensures Strip(Framed(p)) == p
  {
    var q := Framed(p);
    if p == [] {
      assert AllSpace(q);
    } else {
      assert q[1..] == p + "\n";
      assert TrimLeft(q) == TrimLeft(p + "\n");
      assert TrimLeft(q) == p + "\n";
      assert (p + "\n")[..|p|] == p;
    }
  }

  /** A string starts with its own prefix, and drops it when sliced past it. */
  lemma PrefixOccurs(pat: string, t: string)
    ensures OccursAt(pat + t, pat, 0)
    ensures Find(pat + t, pat) == Some(0)
    ensures (pat + t)[|pat|..] == t
  {
    assert (pat + t)[0..|pat|] == pat;
  }

  /** `BeforeFirst` when the first occurrence is known. */
  lemma BeforeFirstAt(s: string, pat: string, i: nat)
    requires Find(s, pat) == Some(i)
    ensures BeforeFirst(s, pat) == s[..i]
  {
  }

  /** A stripped, fence-free payload in a "```json" block is what the parser receives. */
  lemma {:induction false} JsonBlockRoundTrip(p: string)
    requires IsStripped(p) && !Contains(p, Fence)
    ensures CleanedText(JsonFence + Framed(p) + Fence) == p
  {
    var q := Framed(p);
    var t := q + Fence;
    var s := JsonFence + t;
    assert JsonFence + Framed(p) + Fence == s;
    assert IsStripped(s);
    StripStripped(s);
    PrefixOccurs(JsonFence, t);
    assert SplitSecond(s, JsonFence) == BeforeFirst(t, JsonFence);
    FramedFenceFree(p);
    ClosingFenceOnly(q);
    assert BeforeFirst(t, JsonFence) == t;
    BeforeFirstAt(t, Fence, |q|);
    assert t[..|q|] == q;
    StripFramed(p);
  }

  /** The same payload in a plain "```" block is what the parser receives. */
  lemma {:induction false} PlainBlockRoundTrip(p: string)
    requires IsStripped(p) && !Contains(p, Fence)
    ensures CleanedText(Fence + Framed(p) + Fence) == p
  {
    var q := Framed(p);
    var t := q + Fence;
    var s := Fence + t;
    assert Fence + Framed(p) + Fence == s;
    assert IsStripped(s);
    StripStripped(s);
    FramedFenceFree(p);
    ClosingFenceOnly(q);
    PrefixOccurs(Fence, t);
    NoJsonFenceAfterFence(t);
    assert SplitSecond(s, Fence) == BeforeFirst(t, Fence);
    BeforeFirstAt(t, Fence, |q|);
    assert t[..|q|] == q;
    StripFramed(p);
  }

  /** "```" followed by a newline and a string without "```json" holds no "```json". */
  lemma NoJsonFenceAfterFence(t: string)
    requires |t| > 0 && t[0] == '\n' && !Contains(t, JsonFence)
    ensures !Contains(Fence + t, JsonFence)
  {
    var s := Fence + t;
    if Contains(s, JsonFence) {
      var m := Find(s, JsonFence).value;
      JsonFenceStartsWithFence(s, m);
      FenceAt(s, m);
      if m >= 3 {
        assert s[m..m + 7] == t[m - 3..m + 4];
        assert OccursAt(t, JsonFence, m - 3);
      }
      assert false;
    }
  }

  // ---------------------------------------------------------------------------
  // The RAG prompt variables
  // ---------------------------------------------------------------------------

  /** A retrieved node: its text and its metadata. */
  datatype Node = Node(text: string, metadata: map<string, string>)

  /** What `get_response` returns: the answer text and the nodes it was drawn from. */
  datatype Response = Response(text: string, sourceNodes: seq<Node>)

  const QueryVar := "query"
  const ContextSlots: nat := 3

  /** `f"context_{i}"` for the three slots. */
  function ContextKey(i: nat): string
    requires 1 <= i <= ContextSlots
  {
    "context_" + [('0' as int + i) as char]
  }

  /** The text of node `i` (counting from 1), or "" when fewer nodes came back. */
  function Slot(nodes: seq<Node>, i: nat): string {
    if 1 <= i <= |nodes| then nodes[i - 1].text else ""
  }

  /** The template variables: the query, and the first three node texts with "" for missing ones. */
  function TemplateVars(query: string, nodes: seq<Node>): (vars: map<string, string>)
    ensures vars.Keys == {ContextKey(1), ContextKey(2), ContextKey(3), QueryVar}
    ensures vars[QueryVar] == query
    ensures forall i :: 1 <= i <= ContextSlots ==> vars[ContextKey(i)] == if i <= |nodes| then nodes[i - 1].text else ""
  {
    assert ContextKey(1)[8] == '1' && ContextKey(2)[8] == '2' && ContextKey(3)[8] == '3';
    map[ContextKey(1) := Slot(nodes, 1), ContextKey(2) := Slot(nodes, 2), ContextKey(3) := Slot(nodes, 3), QueryVar := query]
  }

  /** Nodes after the third do not reach the prompt. */
  lemma OnlyFirstThreeNodes(query: string, nodes: seq<Node>)
    requires |nodes| >= ContextSlots
    ensures TemplateVars(query, nodes) == TemplateVars(query, nodes[..ContextSlots])
  {
  }

  /** The loop over `enumerate(nodes, start=1)` that writes the first three slots. */
  method FillTemplateVars(query: string, nodes: seq<Node>) returns (vars: map<string, string>)
    ensures vars == TemplateVars(query, nodes)
  {
    vars := map[ContextKey(1) := "", ContextKey(2) := "", ContextKey(3) := "", QueryVar := query];
    for k := 0 to |nodes|
      invariant vars == TemplateVars(query, nodes[..k])
    {
      var i := k + 1;
      if i <= ContextSlots {
        vars := vars[ContextKey(i) := nodes[k].text];
      }
      assert forall j :: 0 <= j < k ==> nodes[..k + 1][j] == nodes[..k][j];
    }
    assert nodes[..|nodes|] == nodes;
  }
}
