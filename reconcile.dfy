/** The first stage shared by the two answer parsers of the generator use
    cases (questions and code feedback): the answer is trimmed, markdown code
    fences are removed, and the text from the first `{` to the last `}` is
    taken as the JSON candidate, with closers appended when the answer was
    cut before its first `}`. */
module Reconcile {
  import opened Wrappers
  import opened Text

  const EMPTY_ANSWER := "Respuesta vacía de Gemini"
  const NO_JSON := "No se encontró JSON válido en la respuesta"
  const INVALID_ANSWER := "Respuesta inválida de Gemini: "
  const PARSE_ERROR := "Error parseando JSON: "

  /** A leading `tag` in any letter case and the whitespace after it are
      removed (an anchored, case-insensitive `replace`). */
  function DropOpeningIgnoreCase(s: string, tag: string): (r: string)
    ensures |r| <= |s|
  {
    if StartsWithIgnoreCase(s, tag) then TrimStart(s[|tag|..]) else s
  }

  /** A leading `tag` without letters and the whitespace after it are removed. */
  function DropOpening(s: string, tag: string): (r: string)
    ensures |r| <= |s|
  {
    if StartsWith(s, tag) then TrimStart(s[|tag|..]) else s
  }

  /** A trailing `tag` without letters and the whitespace before it are removed. */
  function DropClosing(s: string, tag: string): (r: string)
    ensures |r| <= |s|
  {
    if EndsWith(s, tag) then TrimEnd(s[..|s| - |tag|]) else s
  }

  /** The four fence removals, applied in order to the trimmed answer, then a
      final trim: an opening "```json" or "```javascript" (any letter case) or
      "```" with the whitespace after it, and a closing "```" with the
      whitespace before it. */
  function StripFences(s: string): (r: string)
    ensures r == [] || (!IsWhitespace(r[0]) && !IsWhitespace(r[|r| - 1]))
    ensures |r| <= |s|
  {
    var s1 := DropOpeningIgnoreCase(s, "```json");
    var s2 := DropOpeningIgnoreCase(s1, "```javascript");
    var s3 := DropOpening(s2, "```");
    Trim(DropClosing(s3, "```"))
  }

  lemma {:induction false} TrimStartSkips(w: string, t: string)
    requires AllWhitespace(w)
    requires t == [] || !IsWhitespace(t[0])
    ensures TrimStart(w + t) == t
    decreases |w|
  {
    if w != [] {
      assert (w + t)[1..] == w[1..] + t;
      TrimStartSkips(w[1..], t);
    } else {
      assert w + t == t;
    }
  }

  lemma {:induction false} TrimEndSkips(t: string, w: string)
    requires AllWhitespace(w)
    requires t == [] || !IsWhitespace(t[|t| - 1])
    ensures TrimEnd(t + w) == t
    decreases |w|
  {
    if w != [] {
      assert (t + w)[..|t + w| - 1] == t + w[..|w| - 1];
      TrimEndSkips(t, w[..|w| - 1]);
    } else {
      assert t + w == t;
    }
  }

  /** A text that starts and ends with non-whitespace is its own trim. */
  lemma TrimObjectText(b: string)
    requires |b| >= 1 && !IsWhitespace(b[0]) && !IsWhitespace(b[|b| - 1])
    ensures Trim(b) == b
  {
    assert !IsWhitespace(b[0]) && TrimStart(b) == b;
    assert !IsWhitespace(b[|b| - 1]) && TrimEnd(b) == b;
  }

  /** Trimming removes exactly the whitespace around a JSON object text. */
  lemma TrimAround(w1: string, b: string, w2: string)
    requires AllWhitespace(w1) && AllWhitespace(w2)
    requires |b| >= 1 && b[0] == '{' && b[|b| - 1] == '}'
    ensures Trim(w1 + b + w2) == b
  {
    assert w1 + b + w2 == w1 + (b + w2);
    TrimStartSkips(w1, b + w2);
    TrimEndSkips(b, w2);
  }

  /** A JSON object text carries no fence, so fence removal keeps it. */
  lemma ObjectTextKept(b: string)
    requires |b| >= 1 && b[0] == '{' && b[|b| - 1] == '}'
    ensures StripFences(b) == b
  {
    assert !StartsWithIgnoreCase(b, "```json") by {
      if |b| >= 7 { assert ToLower(b[..7])[0] == '{'; }
    }
    assert !StartsWithIgnoreCase(b, "```javascript") by {
      if |b| >= 13 { assert ToLower(b[..13])[0] == '{'; }
    }
    assert !StartsWith(b, "```") by {
      if |b| >= 3 { assert b[..3][0] == '{'; }
    }
    assert !EndsWith(b, "```") by {
      if |b| >= 3 { assert b[|b| - 3..][2] == '}'; }
    }
    TrimObjectText(b);
  }

  /** An answer made of a JSON object text and surrounding whitespace is
      reduced to that text. */
  lemma BareObjectKept(w1: string, b: string, w2: string)
    requires AllWhitespace(w1) && AllWhitespace(w2)
    requires |b| >= 1 && b[0] == '{' && b[|b| - 1] == '}'
    ensures StripFences(Trim(w1 + b + w2)) == b
  {
    TrimAround(w1, b, w2);
    ObjectTextKept(b);
  }

  /** An answer wrapped in a "```json" markdown block is reduced to the JSON
      object text inside it. */
  lemma FencedObjectUnwrapped(w1: string, b: string, w2: string)
    requires AllWhitespace(w1) && AllWhitespace(w2)
    requires |b| >= 1 && b[0] == '{' && b[|b| - 1] == '}'
    ensures StripFences("```json" + w1 + b + w2 + "```") == b
  {
    var rest := b + w2 + "```";
    assert "```json" + w1 + b + w2 + "```" == "```json" + w1 + rest;
    JsonFenceDropped(w1, rest);
    OpenObjectKept(rest);
    ClosingFenceDropped(b, w2);
    TrimObjectText(b);
  }

  /** The opening "```json" and the whitespace after it are removed. */
  lemma JsonFenceDropped(w: string, rest: string)
    requires AllWhitespace(w) && |rest| >= 1 && rest[0] == '{'
    ensures DropOpeningIgnoreCase("```json" + w + rest, "```json") == rest
  {
    var s := "```json" + w + rest;
    assert s[..7] == "```json";
    assert StartsWithIgnoreCase(s, "```json");
    assert s[7..] == w + rest;
    TrimStartSkips(w, rest);
  }

  /** A text opening with `{` has no "```javascript" or "```" opening fence. */
  lemma OpenObjectKept(s: string)
    requires |s| >= 1 && s[0] == '{'
    ensures DropOpeningIgnoreCase(s, "```javascript") == s && DropOpening(s, "```") == s
  {
    assert !StartsWithIgnoreCase(s, "```javascript") by {
      if |s| >= 13 { assert ToLower(s[..13])[0] == '{'; }
    }
    assert !StartsWith(s, "```") by {
      if |s| >= 3 { assert s[..3][0] == '{'; }
    }
  }

  /** The closing "```" and the whitespace before it are removed. */
  lemma ClosingFenceDropped(b: string, w: string)
    requires AllWhitespace(w) && |b| >= 1 && b[|b| - 1] == '}'
    ensures DropClosing(b + w + "```", "```") == b
  {
    var s := b + w + "```";
    assert EndsWith(s, "```");
    assert s[..|s| - 3] == b + w;
    TrimEndSkips(b, w);
  }

  /** A stage error with the prefix of the outer `catch`. */
  function Prefixed<T>(r: Result<T, string>): (p: Result<T, string>)
    ensures r.Ok? ==> p == r
    ensures r.Err? ==> p == Err(INVALID_ANSWER + r.error)
  {
    match r
    case Ok(_) => r
    case Err(e) => Err(INVALID_ANSWER + e)
  }

  /** The whole cleaning of a fenced JSON object answer: it is not blank,
      and trimming and fence removal leave the object text. */
  lemma FencedAnswerCleaned(w1: string, b: string, w2: string)
    requires AllWhitespace(w1) && AllWhitespace(w2)
    requires |b| >= 1 && b[0] == '{' && b[|b| - 1] == '}'
    ensures !AllWhitespace("```json" + w1 + b + w2 + "```")
    ensures StripFences(Trim("```json" + w1 + b + w2 + "```")) == b
  {
    var s := "```json" + w1 + b + w2 + "```";
    assert !IsWhitespace(s[0]) && !IsWhitespace(s[|s| - 1]);
    TrimObjectText(s);
    FencedObjectUnwrapped(w1, b, w2);
  }

  /** The candidate of the answer: from the first `{` to the last `}`; when
      there is a `{` but no `}` at all, `closer` (which ends in `}`) is
      appended first. No `{`, or a last `}` before the first `{`, is the error
      NO_JSON. */
  function ExtractCandidate(clean: string, closer: string): (r: Result<string, string>)
    requires |closer| >= 1 && closer[|closer| - 1] == '}'
    ensures r.Ok? <==> '{' in clean && ('}' !in clean || exists i, j :: 0 <= i < j < |clean| && clean[i] == '{' && clean[j] == '}')
    ensures r.Err? ==> r.error == NO_JSON
    ensures r.Ok? ==> |r.value| >= 1 && r.value[0] == '{' && r.value[|r.value| - 1] == '}'
    ensures r.Ok? && '}' in clean ==>
      exists i :: 0 <= i <= |clean| - |r.value| && '{' !in clean[..i] && r.value == clean[i..i + |r.value|] && '}' !in clean[i + |r.value|..]
    ensures r.Ok? && '}' !in clean ==>
      exists i :: 0 <= i <= |clean| && '{' !in clean[..i] && r.value == clean[i..] + closer
  {
    match IndexOf(clean, '{')
    case None => Err(NO_JSON)
    case Some(first) =>
      match LastIndexOf(clean, '}')
      case None =>
        var c := clean + closer;
        assert c[..first] == clean[..first];
        Ok(c[first..])
      case Some(last) =>
        if last < first then
          assert forall k :: 0 <= k < first ==> clean[k] != '{' by {
            forall k | 0 <= k < first ensures clean[k] != '{' {
              assert clean[..first][k] == clean[k];
            }
          }
          assert forall k :: last < k < |clean| ==> clean[k] != '}' by {
            forall k | last < k < |clean| ensures clean[k] != '}' {
              assert clean[last + 1..][k - last - 1] == clean[k];
            }
          }
          Err(NO_JSON)
        else
          assert clean[first] == '{' && clean[last] == '}';
          var v := clean[first..last + 1];
          assert v == clean[first..first + |v|];
          Ok(v)
  }

  /** A candidate that is a whole JSON object text is taken as it is. */
  lemma CandidateOfObjectText(b: string, closer: string)
    requires |b| >= 1 && b[0] == '{' && b[|b| - 1] == '}'
    requires |closer| >= 1 && closer[|closer| - 1] == '}'
    ensures ExtractCandidate(b, closer) == Ok(b)
  {
    assert IndexOf(b, '{') == Some(0);
    assert LastIndexOf(b, '}') == Some(|b| - 1);
    assert b[0..|b|] == b;
  }

  // ---------------------------------------------------------------------
  // Leftmost regular-expression matches anchored at the end of the text
  // ---------------------------------------------------------------------

  /** The smallest `k` in `[from, to)` with `p(k)`. */
  function Leftmost(from: nat, to: nat, p: nat -> bool): (r: Option<nat>)
    ensures r.Some? ==> from <= r.value < to && p(r.value) && (forall k :: from <= k < r.value ==> !p(k))
    ensures r.None? ==> (forall k :: from <= k < to ==> !p(k))
    decreases if from < to then to - from else 0
  {
    if from >= to then None else if p(from) then Some(from) else Leftmost(from + 1, to, p)
  }

  /** The first index at or after `j` that is not whitespace, or |s|. */
  function SkipWs(s: string, j: nat): (k: nat)
    requires j <= |s|
    ensures j <= k <= |s| && AllWhitespace(s[j..k]) && (k == |s| || !IsWhitespace(s[k]))
    decreases |s| - j
  {
    if j < |s| && IsWhitespace(s[j]) then
      var k := SkipWs(s, j + 1);
      assert s[j..k] == [s[j]] + s[j + 1..k];
      k
    else
      j
  }

  /** `,\s*$` matches at `i`. */
  predicate TrailingCommaAt(s: string, i: nat) {
    i < |s| && s[i] == ',' && AllWhitespace(s[i + 1..])
  }

  /** `s.replace(re, '')` for a pattern ending in `$`: the text up to the
      leftmost match, or the text itself. */
  function CutAtLeftmost(s: string, at: nat -> bool): (r: string)
    ensures |r| <= |s| && r == s[..|r|]
    ensures |r| < |s| ==> at(|r|) && forall k :: 0 <= k < |r| ==> !at(k)
    ensures |r| == |s| ==> forall k :: 0 <= k < |s| ==> !at(k)
  {
    match Leftmost(0, |s|, at)
    case None => s
    case Some(i) => s[..i]
  }

  /** Removes a trailing comma and the whitespace after it. */
  function DropTrailingComma(s: string): (r: string)
    ensures |r| <= |s| && r == s[..|r|]
    ensures |r| < |s| ==> s[|r|] == ',' && AllWhitespace(s[|r| + 1..])
    ensures |r| == |s| ==> forall k :: 0 <= k < |s| ==> !TrailingCommaAt(s, k)
  {
    var at := (i: nat) => TrailingCommaAt(s, i);
    assert forall k: nat :: at(k) == TrailingCommaAt(s, k);
    CutAtLeftmost(s, at)
  }
}
