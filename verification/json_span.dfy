/**
 * Locating the JSON object in the model's reply: the handler runs
 * `textoResposta.match(/\{[\s\S]*\}/)` and parses the matched text.
 *
 * The pattern matches `s[a..b+1]` for any `a < b` with `s[a] == '{'` and
 * `s[b] == '}'` (`[\s\S]` is any code unit, line breaks included). A
 * regular-expression search reports the leftmost start, and for it the
 * longest end, because `*` is greedy.
 */
module JsonSpan {
  import opened Wrappers
  import opened Js

  const OpenBrace: CodeUnit := 0x7B
  const CloseBrace: CodeUnit := 0x7D

  /** The pattern matches the span `s[a..b+1]`. */
  predicate MatchesAt(s: JsString, a: int, b: int) {
    0 <= a < b < |s| && s[a] == OpenBrace && s[b] == CloseBrace
  }

  /** Some `{` has a `}` somewhere after it. */
  ghost predicate HasMatch(s: JsString) {
    exists a, b :: MatchesAt(s, a, b)
  }

  /** The match a search reports: leftmost start, then greedy (longest) end. */
  ghost predicate IsReportedMatch(s: JsString, a: int, b: int) {
    && MatchesAt(s, a, b)
    && (forall a', b' :: MatchesAt(s, a', b') ==> a <= a')
    && (forall b' :: MatchesAt(s, a, b') ==> b' <= b)
  }

  /** The error thrown when the reply holds no `{...}` span. */
  function NoJsonMessage(): JsString {
    Bmp("Claude não retornou JSON válido")
  }

  /** Index of the first occurrence of `u`, scanning from the front. */
  function FirstIndexOf(s: JsString, u: CodeUnit): (r: Option<nat>)
    ensures r.None? ==> forall i | 0 <= i < |s| :: s[i] != u
    ensures r.Some? ==> r.value < |s| && s[r.value] == u
    ensures r.Some? ==> forall i | 0 <= i < r.value :: s[i] != u
  {
    if s == [] then None
    else if s[0] == u then Some(0)
    else
      match FirstIndexOf(s[1..], u)
      case None => None
      case Some(k) => Some(k + 1)
  }

  /** Index of the last occurrence of `u`, scanning from the back. */
  function LastIndexOf(s: JsString, u: CodeUnit): (r: Option<nat>)
    ensures r.None? ==> forall i | 0 <= i < |s| :: s[i] != u
    ensures r.Some? ==> r.value < |s| && s[r.value] == u
    ensures r.Some? ==> forall i | r.value < i < |s| :: s[i] != u
  {
    if s == [] then None
    else if s[|s| - 1] == u then Some(|s| - 1)
    else LastIndexOf(s[..|s| - 1], u)
  }

  /**
   * The bounds of the reported match: the first `{` of the reply and the
   * last `}` of the reply, provided the latter comes after the former.
   */
  function MatchBounds(s: JsString): (r: Option<(nat, nat)>)
    ensures r.None? <==> !HasMatch(s)
    ensures r.Some? ==> IsReportedMatch(s, r.value.0, r.value.1)
    ensures r.Some? ==> forall i | 0 <= i < r.value.0 :: s[i] != OpenBrace
    ensures r.Some? ==> forall i | r.value.1 < i < |s| :: s[i] != CloseBrace
  {
    match FirstIndexOf(s, OpenBrace)
    case None => None
    case Some(a) =>
      match LastIndexOf(s, CloseBrace)
      case None => None
      case Some(b) =>
        if a < b then
          assert MatchesAt(s, a, b);
          Some((a, b))
        else None
  }

  /** At most one match is the reported one. */
  lemma ReportedMatchIsUnique(s: JsString, a: int, b: int, a': int, b': int)
    requires IsReportedMatch(s, a, b) && IsReportedMatch(s, a', b')
    ensures a == a' && b == b'
  {
  }

  /**
   * `jsonMatch[0]`: the matched text, or the "no JSON" error when the
   * match is `null`. The span is a contiguous piece of the reply.
   */
  function ExtractJsonSpan(reply: JsString): (r: Result<JsString, JsString>)
    ensures r.Failure? <==> !HasMatch(reply)
    ensures r.Failure? ==> r.error == NoJsonMessage()
    ensures r.Success? ==> exists a, b :: IsReportedMatch(reply, a, b) && r.value == reply[a..b + 1]
  {
    match MatchBounds(reply)
    case None => Failure(NoJsonMessage())
    case Some((a, b)) => Success(reply[a..b + 1])
  }

  /** The extracted span has at least two code units, opens with `{` and closes with `}`. */
  lemma SpanStartsAndEndsWithBraces(reply: JsString)
    requires ExtractJsonSpan(reply).Success?
    ensures var span := ExtractJsonSpan(reply).value;
      |span| >= 2 && span[0] == OpenBrace && span[|span| - 1] == CloseBrace
  {
  }

  /**
   * An object wrapped in prose (or a Markdown fence) is recovered exactly,
   * provided the text before it has no `{` and the text after it no `}`.
   */
  lemma {:induction false} WrappedObjectIsExtracted(before: JsString, obj: JsString, after: JsString)
    requires |obj| >= 2 && obj[0] == OpenBrace && obj[|obj| - 1] == CloseBrace
    requires forall i | 0 <= i < |before| :: before[i] != OpenBrace
    requires forall i | 0 <= i < |after| :: after[i] != CloseBrace
    ensures ExtractJsonSpan(before + obj + after) == Success(obj)
  {
    var s := before + obj + after;
    var a, b := |before|, |before| + |obj| - 1;
    assert MatchesAt(s, a, b);
    assert IsReportedMatch(s, a, b) by {
      forall i | 0 <= i < a ensures s[i] != OpenBrace {
        assert s[i] == before[i];
      }
      forall i | b < i < |s| ensures s[i] != CloseBrace {
        assert s[i] == after[i - |before| - |obj|];
      }
    }
    var bounds := MatchBounds(s);
    ReportedMatchIsUnique(s, a, b, bounds.value.0, bounds.value.1);
    assert s[a..b + 1] == obj;
  }

  /**
   * Greedy matching runs from the first `{` to the last `}`: two objects in
   * one reply come back as one span, brace-to-brace, with the text between them.
   */
  lemma {:induction false} TwoObjectsGiveOneSpan(first: JsString, middle: JsString, second: JsString)
    requires |first| >= 2 && first[0] == OpenBrace && first[|first| - 1] == CloseBrace
    requires |second| >= 2 && second[0] == OpenBrace && second[|second| - 1] == CloseBrace
    ensures ExtractJsonSpan(first + middle + second) == Success(first + middle + second)
  {
    WrappedObjectIsExtracted([], first + middle + second, []);
    assert [] + (first + middle + second) + [] == first + middle + second;
  }

  /** A fenced reply with prose in front yields exactly the object inside the fence. */
  lemma ExampleFencedReply()
    ensures ExtractJsonSpan(
      Bmp("Aqui está:\n```json\n") + Bmp("{\"nomeReceita\":\"Bolo\",\"avisos\":[]}") + Bmp("\n```"))
      == Success(Bmp("{\"nomeReceita\":\"Bolo\",\"avisos\":[]}"))
  {
    var before := Bmp("Aqui está:\n```json\n");
    var obj := Bmp("{\"nomeReceita\":\"Bolo\",\"avisos\":[]}");
    var after := Bmp("\n```");
    forall i | 0 <= i < |before| ensures before[i] != OpenBrace {
    }
    forall i | 0 <= i < |after| ensures after[i] != CloseBrace {
    }
    WrappedObjectIsExtracted(before, obj, after);
  }
}
