/**
 * The optional summarisation step (index.js:338-419): finding the JSON text
 * in the summariser's free-form reply, and the best-effort policy that turns
 * every failure of this step into a `null` parsed research.
 */
module JsonSpan {
  import opened Wrappers
  import opened Strings
  import opened Http
  import opened Research

  const JsonFence := "```json"
  const Fence := "```"

  /**
   * A parsed JSON value, as far as the worker looks into it. `JOther` stands
   * for arrays, strings, booleans and non-integral numbers.
   */
  datatype Json = JNull | JNumber(value: int) | JObject(fields: map<string, Json>) | JOther

  /** A match of /```json\n?([\s\S]*?)\n?```/: the whole match and its group. */
  datatype FenceMatch = FenceMatch(whole: string, group: string)

  /**
   * The leftmost match of the fenced-block pattern. It starts at the first
   * "```json"; one line break after it is skipped; the lazy group stops at
   * the first "```" after that, leaving out one line break just before it.
   */
  function MatchFenced(s: string): Option<FenceMatch> {
    match FindFrom(s, JsonFence, 0)
    case None => None
    case Some(i) =>
      var g := GroupStart(s, i);
      match FindFrom(s, Fence, g)
      case None => None
      case Some(c) => Some(FenceMatch(s[i..c + 3], s[g..GroupEnd(s, g, c)]))
  }

  /** Where the group starts: after "```json" and one optional line break. */
  function GroupStart(s: string, i: nat): (g: nat)
    ensures i + 7 <= g <= i + 8
  {
    if i + 7 < |s| && s[i + 7] == '\n' then i + 8 else i + 7
  }

  /** Where the group ends: before the closing "```" and one optional line break. */
  function GroupEnd(s: string, g: nat, c: nat): (e: nat)
    requires g <= c <= |s|
    ensures g <= e <= c
  {
    if c > g && s[c - 1] == '\n' then c - 1 else c
  }

  /**
   * A fenced match is the leftmost one: it starts at the first "```json" of
   * the reply. It reads "```json", an optional line break, the group, an
   * optional line break and "```". The line break after "```json" is taken
   * whenever the reply has one there. The group is as short as possible: no
   * "```" starts inside the match before its closing fence, and a group that
   * ends with a line break has given it to the closing `\n?`.
   */
  lemma FencedMatchShape(s: string)
    requires MatchFenced(s).Some?
    ensures var m := MatchFenced(s).value;
      exists i: nat :: OccursAt(s, m.whole, i) && forall k :: 0 <= k < i ==> !OccursAt(s, JsonFence, k)
    ensures var m := MatchFenced(s).value;
      var i := FindFrom(s, JsonFence, 0).value;
      exists pre: string, post: string ::
        && m.whole == JsonFence + pre + m.group + post + Fence
        && (pre == "\n" <==> i + 7 < |s| && s[i + 7] == '\n') && (pre == "" || pre == "\n")
        && (post == "" || post == "\n")
        && (post == "" && m.group != "" ==> m.group[|m.group| - 1] != '\n')
    ensures var m := MatchFenced(s).value;
      forall k :: 7 <= k < |m.whole| - 3 ==> !OccursAt(m.whole, Fence, k)
    ensures !Contains(MatchFenced(s).value.group, Fence)
  {
    var i := FindFrom(s, JsonFence, 0).value;
    var g := GroupStart(s, i);
    var c := FindFrom(s, Fence, g).value;
    var e := GroupEnd(s, g, c);
    var m := MatchFenced(s).value;
    assert m == FenceMatch(s[i..c + 3], s[g..e]);
    FencedMatchParts(s, i, g, c, e, m.whole, m.group);
    LazyGroup(s, m.whole, i, g, c);
    GroupHoldsNoFence(s, g, c, e);
  }

  /**
   * The parts of the match: "```json", the optional line break, the group,
   * the optional line break, "```"; and where the match sits in the reply.
   */
  lemma FencedMatchParts(s: string, i: nat, g: nat, c: nat, e: nat, whole: string, group: string)
    requires OccursAt(s, JsonFence, i) && g == GroupStart(s, i) && OccursAt(s, Fence, c) && g <= c && e == GroupEnd(s, g, c)
    requires whole == s[i..c + 3] && group == s[g..e]
    ensures OccursAt(s, whole, i)
    ensures exists pre: string, post: string ::
      && whole == JsonFence + pre + group + post + Fence
      && (pre == "\n" <==> i + 7 < |s| && s[i + 7] == '\n') && (pre == "" || pre == "\n")
      && (post == "" || post == "\n")
      && (post == "" && group != "" ==> group[|group| - 1] != '\n')
  {
    var pre, post := s[i + 7..g], s[e..c];
    assert s[i..i + 7] == JsonFence;
    assert s[c..c + 3] == Fence;
    SliceSplit(s, i, c, c + 3);
    SliceSplit(s, i, e, c);
    SliceSplit(s, i, g, e);
    SliceSplit(s, i, i + 7, g);
    assert whole == JsonFence + pre + group + post + Fence;
    if g == i + 8 {
      assert pre == [s[i + 7]];
    }
    if e == c - 1 {
      assert post == [s[c - 1]];
    }
    if post == "" && group != "" {
      assert group[e - g - 1] == s[c - 1];
    }
  }

  lemma SliceSplit(s: string, a: nat, b: nat, c: nat)
    requires a <= b <= c <= |s|
    ensures s[a..c] == s[a..b] + s[b..c]
  {
  }

  /** No "```" starts in the match between "```json" and its closing fence. */
  lemma LazyGroup(s: string, whole: string, i: nat, g: nat, c: nat)
    requires OccursAt(s, JsonFence, i) && g == GroupStart(s, i) && g <= c && c + 3 <= |s| && whole == s[i..c + 3]
    requires forall k :: g <= k < c ==> !OccursAt(s, Fence, k)
    ensures forall k :: 7 <= k < |whole| - 3 ==> !OccursAt(whole, Fence, k)
  {
    forall k | 7 <= k < |whole| - 3 ensures !OccursAt(whole, Fence, k) {
      assert whole[k..k + 3] == [whole[k], whole[k + 1], whole[k + 2]];
      assert s[i + k..i + k + 3] == [s[i + k], s[i + k + 1], s[i + k + 2]];
      if i + k < g {
        assert s[i + k] == '\n';
      } else {
        assert !OccursAt(s, Fence, i + k);
      }
    }
  }

  lemma GroupHoldsNoFence(s: string, g: nat, c: nat, e: nat)
    requires g <= e <= c <= |s|
    requires forall k :: g <= k < c ==> !OccursAt(s, Fence, k)
    ensures !Contains(s[g..e], Fence)
  {
    var group := s[g..e];
    forall k: nat | k <= |group| ensures !OccursAt(group, Fence, k) {
      if k + 3 <= |group| {
        assert group[k] == s[g + k] && group[k + 1] == s[g + k + 1] && group[k + 2] == s[g + k + 2];
        assert group[k..k + 3] == s[g + k..g + k + 3];
        assert !OccursAt(s, Fence, g + k);
      }
    }
  }

  /** Any "```json" followed by a "```" makes the fenced pattern match. */
  lemma FenceFound(s: string, i: nat, c: nat)
    requires OccursAt(s, JsonFence, i) && OccursAt(s, Fence, c) && i + 7 <= c
    ensures MatchFenced(s).Some?
  {
    var first := FindFrom(s, JsonFence, 0);
    assert first.Some?;
    var i0 := first.value;
    assert i0 <= i;
    var g := GroupStart(s, i0);
    assert s[c] == '`' by {
      assert s[c..c + 3][0] == s[c];
    }
    assert g <= c;
    assert FindFrom(s, Fence, g).Some?;
  }

  /** The fenced pattern matches exactly when some "```json" is followed by a "```". */
  lemma FencedMatchExists(s: string)
    ensures MatchFenced(s).Some? <==>
      exists i: nat, c: nat :: OccursAt(s, JsonFence, i) && OccursAt(s, Fence, c) && i + 7 <= c
  {
    if exists i: nat, c: nat :: OccursAt(s, JsonFence, i) && OccursAt(s, Fence, c) && i + 7 <= c {
      var i: nat, c: nat :| OccursAt(s, JsonFence, i) && OccursAt(s, Fence, c) && i + 7 <= c;
      FenceFound(s, i, c);
    }
    if MatchFenced(s).Some? {
      var i0 := FindFrom(s, JsonFence, 0).value;
      var c := FindFrom(s, Fence, GroupStart(s, i0)).value;
      assert OccursAt(s, JsonFence, i0) && OccursAt(s, Fence, c) && i0 + 7 <= c;
    }
  }

  /**
   * The leftmost match of /\{[\s\S]*\}/: from the first `{` to the last `}`,
   * when that `}` comes after it.
   */
  function MatchBraces(s: string): (r: Option<string>)
    ensures r.Some? <==> exists i, j :: 0 <= i < j < |s| && s[i] == '{' && s[j] == '}'
    ensures r.Some? ==> |r.value| >= 2 && r.value[0] == '{' && r.value[|r.value| - 1] == '}'
    ensures r.Some? ==> exists i: nat :: OccursAt(s, r.value, i) && '{' !in s[..i] && '}' !in s[i + |r.value|..]
  {
    match FindFirst(s, '{')
    case None => None
    case Some(i) =>
      match FindLast(s, '}')
      case None => None
      case Some(j) =>
        if i < j then
          var span := s[i..j + 1];
          assert OccursAt(s, span, i);
          assert s[i + |span|..] == s[j + 1..];
          Some(span)
        else
          None
  }

  /**
   * `jsonMatch[1] || jsonMatch[0]`: the fenced block's inner text, or the
   * whole fenced match when that text is empty, or else the brace span.
   * Without a fenced block, the span is found exactly when some `{` precedes
   * some `}`, and it then runs from the first `{` to the last `}`.
   */
  function ExtractJsonSpan(s: string): (r: Option<string>)
    ensures MatchFenced(s).None? ==>
      (r.Some? <==> exists i, j :: 0 <= i < j < |s| && s[i] == '{' && s[j] == '}')
    ensures MatchFenced(s).None? && r.Some? ==>
      && |r.value| >= 2 && r.value[0] == '{' && r.value[|r.value| - 1] == '}'
      && exists i: nat :: OccursAt(s, r.value, i) && '{' !in s[..i] && '}' !in s[i + |r.value|..]
  {
    match MatchFenced(s)
    case Some(m) => Some(if m.group != "" then m.group else m.whole)
    case None => MatchBraces(s)
  }

  /** A fenced block wins over any brace span. */
  lemma FenceIsPreferred(s: string, i: nat, c: nat)
    requires OccursAt(s, JsonFence, i) && OccursAt(s, Fence, c) && i + 7 <= c
    ensures MatchFenced(s).Some?
    ensures ExtractJsonSpan(s) == Some(if MatchFenced(s).value.group != "" then MatchFenced(s).value.group else MatchFenced(s).value.whole)
  {
    FencedMatchExists(s);
  }

  /** No span is extracted exactly when neither pattern matches. */
  lemma NoSpanWhenNeitherMatches(s: string)
    ensures ExtractJsonSpan(s).None? <==>
      && (forall i: nat, c: nat :: !(OccursAt(s, JsonFence, i) && OccursAt(s, Fence, c) && i + 7 <= c))
      && (forall i, j :: 0 <= i < j < |s| ==> !(s[i] == '{' && s[j] == '}'))
  {
    FencedMatchExists(s);
  }

  /**
   * `parsedResearch.total_citations = n`: set on an object; a TypeError on
   * null (`None`); a silent no-op on any other value.
   */
  function SetTotalCitations(v: Json, total: nat): (r: Option<Json>)
    ensures r.None? <==> v == JNull
    ensures v.JObject? ==> r == Some(JObject(v.fields["total_citations" := JNumber(total)]))
    ensures !v.JObject? && v != JNull ==> r == Some(v)
  {
    match v
    case JNull => None
    case JObject(fields) => Some(JObject(fields["total_citations" := JNumber(total)]))
    case _ => Some(v)
  }

  /**
   * The parsed research the worker persists: the summariser's JSON with its
   * `total_citations` set to the merged citation count, or `null` whenever
   * the step is skipped or fails. `jsonParse` stands for `JSON.parse` on the
   * extracted span, `None` being a throw.
   */
  function Summarise(keyPresent: bool, reply: Reply<ChatBody>, jsonParse: string -> Option<Json>, total: nat): (r: Json)
    ensures !keyPresent ==> r == JNull
    ensures reply.Thrown? || !IsOk(reply.status) ==> r == JNull
    ensures reply.Response? && ExtractJsonSpan(ContentOf(reply.body)).None? ==> r == JNull
    ensures r.JObject? ==> "total_citations" in r.fields && r.fields["total_citations"] == JNumber(total)
    ensures r != JNull ==>
      && keyPresent && reply.Response? && IsOk(reply.status)
      && var span := ExtractJsonSpan(ContentOf(reply.body));
      && span.Some? && jsonParse(span.value).Some?
      && SetTotalCitations(jsonParse(span.value).value, total) == Some(r)
    ensures keyPresent && reply.Response? && IsOk(reply.status) ==>
      var span := ExtractJsonSpan(ContentOf(reply.body));
      span.Some? && jsonParse(span.value).Some? && jsonParse(span.value).value != JNull ==>
        Some(r) == SetTotalCitations(jsonParse(span.value).value, total)
  {
    if !keyPresent then JNull
    else match reply
      case Thrown(_) => JNull
      case Response(status, _, body) =>
        if !IsOk(status) then JNull
        else match ExtractJsonSpan(ContentOf(body))
          case None => JNull
          case Some(span) =>
            match jsonParse(span)
            case None => JNull
            case Some(parsed) =>
              match SetTotalCitations(parsed, total)
              case None => JNull
              case Some(withTotal) => withTotal
  }
}
