/** The in-memory cache of generated feedback and questions
    (InMemoryCacheService): a map from keys to timestamped entries with a time
    to live in days. Code is keyed by exercise and by the hash of its
    normalised text (comments dropped, whitespace collapsed, lower case), so
    that equivalent submissions share an entry. Time is a parameter in
    milliseconds; the md5 digest is a function given at construction. */
module Cache {
  import opened Wrappers
  import opened Text
  import opened Json
  import opened QuestionParser

  const DAY_MS := 86400000

  /** What is cached for a submission. */
  datatype CodeFeedback = CodeFeedback(resultado: Json, puntos: Json, retroalimentacion: Json)

  datatype CacheData = CodeData(feedback: CodeFeedback) | QuestionsData(questions: seq<GeneratedQuestion>)

  datatype CacheEntry = CacheEntry(key: string, data: CacheData, timestamp: int, ttlDays: Option<int>)

  datatype CodeLookup = CodeMiss | CodeHit(feedback: CodeFeedback, edadDias: int)

  datatype QuestionsLookup = QuestionsMiss | QuestionsHit(questions: seq<GeneratedQuestion>, edadDias: int)

  // ---------------------------------------------------------------------
  // Normalisation of submitted code
  // ---------------------------------------------------------------------

  /** The text from the first line terminator on (what `.*$` leaves). */
  function LineRest(s: string): (r: string)
    ensures |r| <= |s|
  {
    if s == [] then []
    else if IsLineTerminator(s[0]) then s
    else LineRest(s[1..])
  }

  predicate StartsLineComment(s: string) {
    |s| >= 2 && s[0] == '/' && s[1] == '/'
  }

  predicate StartsBlockComment(s: string) {
    |s| >= 2 && s[0] == '/' && s[1] == '*'
  }

  /** `replace(/\/\/.*$/gm, '')`: each `//` and the rest of its line go. */
  function StripLineComments(s: string): (r: string)
    ensures |r| <= |s|
    ensures s != [] && s[0] != '/' ==> r != [] && r[0] == s[0]
    ensures r != [] ==> r[0] == s[0] || IsLineTerminator(r[0])
    ensures forall i, j :: 0 <= i && j == i + 1 < |r| ==> !(r[i] == '/' && r[j] == '/')
    decreases |s|
  {
    if s == [] then []
    else if StartsLineComment(s) then
      LineRestMeans(s[2..]);
      StripLineComments(LineRest(s[2..]))
    else
      var rest := StripLineComments(s[1..]);
      assert s[0] == '/' && |s| >= 2 ==> rest != [] && rest[0] == s[1];
      [s[0]] + rest
  }

  // The lazy global block-comment replacement: each opening slash-star and
  // the text up to the first star-slash after it go; an unclosed opening
  // stays.
  function StripBlockComments(s: string): (r: string)
    ensures |r| <= |s|
    decreases |s|
  {
    if s == [] then []
    else if StartsBlockComment(s) && Find(s[2..], "*/").Some? then
      StripBlockComments(s[2 + Find(s[2..], "*/").value + 2..])
    else
      [s[0]] + StripBlockComments(s[1..])
  }

  /** No whitespace but single spaces. */
  predicate Collapsed(r: string) {
    (forall i :: 0 <= i < |r| && IsWhitespace(r[i]) ==> r[i] == ' ')
    && (forall i, j :: 0 <= i && j == i + 1 < |r| ==> !(IsWhitespace(r[i]) && IsWhitespace(r[j])))
  }

  lemma CollapsedCons(c: char, rest: string)
    requires Collapsed(rest)
    requires IsWhitespace(c) ==> c == ' ' && (rest == [] || !IsWhitespace(rest[0]))
    ensures Collapsed([c] + rest)
  {
    var r := [c] + rest;
    forall i, j | 0 <= i && j == i + 1 < |r|
      ensures !(IsWhitespace(r[i]) && IsWhitespace(r[j]))
    {
      if i > 0 {
        assert r[i] == rest[i - 1] && r[j] == rest[i];
      }
    }
  }

  /** `replace(/\s+/g, ' ')`: every run of whitespace becomes one space. */
  function CollapseWhitespace(s: string): (r: string)
    ensures |r| <= |s|
    ensures s != [] && !IsWhitespace(s[0]) ==> r != [] && r[0] == s[0]
    ensures s != [] && IsWhitespace(s[0]) ==> r != [] && r[0] == ' '
    decreases |s|
  {
    if s == [] then []
    else if IsWhitespace(s[0]) then
      var t := TrimStart(s);
      assert t == TrimStart(s[1..]);
      [' '] + CollapseWhitespace(t)
    else
      [s[0]] + CollapseWhitespace(s[1..])
  }

  /** What the collapse leaves is made of single spaces between other
      characters. */
  lemma {:induction false} CollapseLeavesSingleSpaces(s: string)
    ensures Collapsed(CollapseWhitespace(s))
    decreases |s|
  {
    if s != [] {
      if IsWhitespace(s[0]) {
        var t := TrimStart(s);
        assert t == TrimStart(s[1..]);
        CollapseLeavesSingleSpaces(t);
        CollapsedCons(' ', CollapseWhitespace(t));
      } else {
        CollapseLeavesSingleSpaces(s[1..]);
        CollapsedCons(s[0], CollapseWhitespace(s[1..]));
      }
    }
  }

  /** The text whose md5 digest keys a submission. */
  function Normalize(codigo: string): (r: string)
    ensures |r| <= |codigo|
    ensures ToLower(r) == r
    ensures r == [] || (!IsWhitespace(r[0]) && !IsWhitespace(r[|r| - 1]))
  {
    var t := Trim(CollapseWhitespace(StripBlockComments(StripLineComments(codigo))));
    ToLowerIdempotent(t);
    LowerKeepsEnds(t);
    ToLower(t)
  }

  /** Lower-casing keeps a text free of surrounding whitespace. */
  lemma LowerKeepsEnds(t: string)
    requires t == [] || (!IsWhitespace(t[0]) && !IsWhitespace(t[|t| - 1]))
    ensures var l := ToLower(t); l == [] || (!IsWhitespace(l[0]) && !IsWhitespace(l[|l| - 1]))
  {
    if t != [] {
      LowerCharIdempotent(t[0]);
      LowerCharIdempotent(t[|t| - 1]);
    }
  }

  /** A trailing line comment does not change the line-comment stage. */
  lemma {:induction false} TrailingLineCommentIgnored(a: string, c: string)
    requires a == [] || a[|a| - 1] != '/'
    requires NoLineTerminator(c)
    ensures StripLineComments(a + "//" + c) == StripLineComments(a)
    decreases |a|
  {
    var s := a + "//" + c;
    if a == [] {
      assert s == "//" + c && s[2..] == c;
      LineRestNone(c);
    } else if StartsLineComment(a) {
      TrailingCommentAfterComment(a, c);
    } else {
      assert !StartsLineComment(s) by {
        if |a| == 1 { assert s[0] == a[0] && a[0] != '/'; }
        else { assert s[0] == a[0] && s[1] == a[1]; }
      }
      assert s[0] == a[0];
      assert s[1..] == a[1..] + "//" + c;
      TrailingLineCommentIgnored(a[1..], c);
    }
  }

  /** The step of TrailingLineCommentIgnored where `a` opens with `//`. */
  lemma {:induction false} TrailingCommentAfterComment(a: string, c: string)
    requires StartsLineComment(a) && a[|a| - 1] != '/'
    requires NoLineTerminator(c)
    ensures StripLineComments(a + "//" + c) == StripLineComments(a)
    decreases |a|, 0
  {
    var s := a + "//" + c;
    assert s[0] == a[0] && s[1] == a[1];
    var u := a[2..];
    assert s[2..] == u + ("//" + c);
    var rest := LineRest(u);
    if rest != [] {
      LineRestMeans(u);
      LineRestAppend(u, "//" + c);
      assert rest[|rest| - 1] == a[|a| - 1];
      assert rest + ("//" + c) == rest + "//" + c;
      TrailingLineCommentIgnored(rest, c);
    } else {
      NoTerminatorAfter(u, c);
    }
  }

  lemma NoTerminatorAfter(u: string, c: string)
    requires LineRest(u) == []
    requires NoLineTerminator(c)
    ensures LineRest(u + ("//" + c)) == []
  {
    LineRestMeans(u);
    assert NoLineTerminator("//");
    NoLineTerminatorConcat("//", c);
    NoLineTerminatorConcat(u, "//" + c);
    LineRestNone(u + ("//" + c));
  }

  /** The rest is a suffix that starts at the first line terminator, and
      is empty exactly when there is none. */
  lemma {:induction false} LineRestMeans(s: string)
    ensures LineRest(s) == s[|s| - |LineRest(s)|..]
    ensures LineRest(s) == [] || IsLineTerminator(LineRest(s)[0])
    ensures NoLineTerminator(s[..|s| - |LineRest(s)|])
  {
    if s != [] && !IsLineTerminator(s[0]) {
      LineRestMeans(s[1..]);
      assert s[..|s| - |LineRest(s)|] == [s[0]] + s[1..][..|s| - 1 - |LineRest(s[1..])|];
    }
  }

  lemma {:induction false} LineRestAppend(a: string, b: string)
    requires LineRest(a) != []
    ensures LineRest(a + b) == LineRest(a) + b
    decreases |a|
  {
    if IsLineTerminator(a[0]) {
    } else {
      assert (a + b)[1..] == a[1..] + b;
      LineRestAppend(a[1..], b);
    }
  }

  lemma {:induction false} LineRestNone(s: string)
    requires NoLineTerminator(s)
    ensures LineRest(s) == []
    decreases |s|
  {
    if s != [] {
      LineRestNone(s[1..]);
    }
  }

  /** Code followed by a `//` comment on its last line normalises, and so
      hashes, as the code alone. */
  lemma TrailingCommentSameNormalForm(a: string, c: string)
    requires a == [] || a[|a| - 1] != '/'
    requires NoLineTerminator(c)
    ensures Normalize(a + "//" + c) == Normalize(a)
  {
    TrailingLineCommentIgnored(a, c);
  }

  // Spacing within a line: a run of spaces or tabs between two parts of the
  // code never changes the normal form, whatever its length.

  /** A non-empty run of whitespace that does not end a line. */
  predicate InlineSpace(x: string) {
    x != [] && forall i :: 0 <= i < |x| ==> IsWhitespace(x[i]) && !IsLineTerminator(x[i])
  }

  /** A cut inside the part before the run. */
  lemma HeadOfJoin(a: string, x: string, b: string, i: nat)
    requires i <= |a|
    ensures (a + x + b)[..i] == a[..i] && (a + x + b)[i..] == a[i..] + x + b
  {
  }

  /** With nothing before it, the run starts the text. */
  lemma NothingBeforeRun(a: string, x: string, b: string)
    requires a == []
    ensures a + x + b == x + b && [] + x + b == x + b
  {
  }

  /** A kept first character joins the part before the run. */
  lemma ConsBeforeRun(c: char, a1: string, x: string, b2: string)
    ensures [c] + (a1 + x + b2) == ([c] + a1) + x + b2
  {
  }

  /** A cut inside the part after the run. */
  lemma TailOfJoin(a: string, x: string, b: string, k: nat)
    requires k <= |b|
    ensures (a + x + b)[|a| + |x| + k..] == b[k..]
  {
  }

  /** Text without a slash is kept by the line-comment stage. */
  lemma {:induction false} StripLineKeeps(u: string, b: string)
    requires forall i :: 0 <= i < |u| ==> u[i] != '/'
    ensures StripLineComments(u + b) == u + StripLineComments(b)
    decreases |u|
  {
    if u != [] {
      assert (u + b)[0] == u[0] && (u + b)[1..] == u[1..] + b;
      StripLineKeeps(u[1..], b);
    } else {
      assert u + b == b;
    }
  }

  /** A text without line terminators does not reach the end of its line. */
  lemma {:induction false} LineRestSkip(u: string, b: string)
    requires NoLineTerminator(u)
    ensures LineRest(u + b) == LineRest(b)
    decreases |u|
  {
    if u != [] {
      assert (u + b)[0] == u[0] && (u + b)[1..] == u[1..] + b;
      LineRestSkip(u[1..], b);
    } else {
      assert u + b == b;
    }
  }

  /** A line comment opened in `a` and ended within `a` leaves the run in
      place. */
  lemma LineEndsInHead(a: string, x: string, b: string)
    requires InlineSpace(x) && StartsLineComment(a) && LineRest(a[2..]) != []
    ensures StripLineComments(a + x + b) == StripLineComments(LineRest(a[2..]) + x + b)
  {
    var u := a[2..];
    HeadOfJoin(a, x, b, 2);
    LineStepComment(a + x + b);
    assert u + x + b == u + (x + b);
    LineRestAppend(u, x + b);
    assert LineRest(u) + (x + b) == LineRest(u) + x + b;
  }

  /** One step of the line-comment stage at a `//`. */
  lemma LineStepComment(s: string)
    requires StartsLineComment(s)
    ensures StripLineComments(s) == StripLineComments(LineRest(s[2..]))
  {
  }

  /** One step of the line-comment stage at another character. */
  lemma LineStepKeeps(s: string)
    requires s != [] && !StartsLineComment(s)
    ensures StripLineComments(s) == [s[0]] + StripLineComments(s[1..])
  {
  }

  /** A line comment opened in `a` and not ended there swallows the run. */
  lemma LineRunsOn(a: string, x: string, b: string)
    requires InlineSpace(x) && StartsLineComment(a) && LineRest(a[2..]) == []
    ensures StripLineComments(a + x + b) == StripLineComments(LineRest(b))
  {
    var u := a[2..];
    HeadOfJoin(a, x, b, 2);
    LineStepComment(a + x + b);
    assert NoLineTerminator(u + x) by {
      LineRestMeans(u);
      assert u[..|u|] == u;
      NoLineTerminatorConcat(u, x);
    }
    LineRestSkip(u + x, b);
  }

  /** A first character that opens no line comment is kept. */
  lemma LineKept(a: string, x: string, b: string)
    requires InlineSpace(x) && a != [] && !StartsLineComment(a)
    ensures StripLineComments(a + x + b) == [a[0]] + StripLineComments(a[1..] + x + b)
  {
    HeadOfJoin(a, x, b, 1);
    assert !StartsLineComment(a + x + b) by {
      if |a| >= 2 {
        HeadOfJoin(a, x, b, 2);
      }
    }
    LineStepKeeps(a + x + b);
  }

  /** The line-comment stage on `a + x + b`, for runs `x` and `y`: either
      the run is swallowed by a comment and the results agree, or it
      survives between the same two texts. */
  lemma {:induction false} LineGap(a: string, x: string, y: string, b: string) returns (same: bool, a2: string, b2: string)
    requires InlineSpace(x) && InlineSpace(y)
    ensures same ==> StripLineComments(a + x + b) == StripLineComments(a + y + b)
    ensures !same ==> StripLineComments(a + x + b) == a2 + x + b2 && StripLineComments(a + y + b) == a2 + y + b2
    decreases |a|, 1
  {
    if a == [] {
      NothingBeforeRun(a, x, b);
      NothingBeforeRun(a, y, b);
      NothingBeforeRun(a, x, StripLineComments(b));
      NothingBeforeRun(a, y, StripLineComments(b));
      StripLineKeeps(x, b);
      StripLineKeeps(y, b);
      return false, [], StripLineComments(b);
    }
    if StartsLineComment(a) && LineRest(a[2..]) != [] {
      same, a2, b2 := LineGapEnds(a, x, y, b);
    } else if StartsLineComment(a) {
      LineRunsOn(a, x, b);
      LineRunsOn(a, y, b);
      return true, [], [];
    } else {
      same, a2, b2 := LineGapKept(a, x, y, b);
    }
  }

  /** LineGap where `a` opens a line comment that ends within `a`. */
  lemma {:induction false} LineGapEnds(a: string, x: string, y: string, b: string) returns (same: bool, a2: string, b2: string)
    requires InlineSpace(x) && InlineSpace(y) && StartsLineComment(a) && LineRest(a[2..]) != []
    ensures same ==> StripLineComments(a + x + b) == StripLineComments(a + y + b)
    ensures !same ==> StripLineComments(a + x + b) == a2 + x + b2 && StripLineComments(a + y + b) == a2 + y + b2
    decreases |a|, 0
  {
    LineEndsInHead(a, x, b);
    LineEndsInHead(a, y, b);
    same, a2, b2 := LineGap(LineRest(a[2..]), x, y, b);
  }

  /** LineGap where the first character of `a` is kept. */
  lemma {:induction false} LineGapKept(a: string, x: string, y: string, b: string) returns (same: bool, a2: string, b2: string)
    requires InlineSpace(x) && InlineSpace(y) && a != [] && !StartsLineComment(a)
    ensures same ==> StripLineComments(a + x + b) == StripLineComments(a + y + b)
    ensures !same ==> StripLineComments(a + x + b) == a2 + x + b2 && StripLineComments(a + y + b) == a2 + y + b2
    decreases |a|, 0
  {
    LineKept(a, x, b);
    LineKept(a, y, b);
    var a1;
    same, a1, b2 := LineGap(a[1..], x, y, b);
    a2 := [a[0]] + a1;
    ConsBeforeRun(a[0], a1, x, b2);
    ConsBeforeRun(a[0], a1, y, b2);
  }

  /** Text without a slash is kept by the block-comment stage. */
  lemma {:induction false} StripBlockKeeps(u: string, b: string)
    requires forall i :: 0 <= i < |u| ==> u[i] != '/'
    ensures StripBlockComments(u + b) == u + StripBlockComments(b)
    decreases |u|
  {
    if u != [] {
      assert (u + b)[0] == u[0] && (u + b)[1..] == u[1..] + b;
      StripBlockKeeps(u[1..], b);
    } else {
      assert u + b == b;
    }
  }

  /** `*` then `/` at `j`. */
  predicate CloserAt(s: string, j: int) {
    0 <= j && j + 1 < |s| && s[j] == '*' && s[j + 1] == '/'
  }

  lemma CloserMeans(s: string)
    ensures forall j :: OccursAt(s, "*/", j) <==> CloserAt(s, j)
  {
    forall j | 0 <= j && j + 2 <= |s| ensures s[j..j + 2] == "*/" <==> CloserAt(s, j) {
      assert s[j..j + 2][0] == s[j] && s[j..j + 2][1] == s[j + 1];
    }
  }

  /** A run `x` neither holds nor starts a star-slash, so the pairs of
      `p + x + b` are those of `p` and those of `b`, shifted. */
  lemma CloserSplitHead(p: string, x: string, b: string)
    requires InlineSpace(x)
    ensures forall j :: 0 <= j < |p| + |x| ==> (OccursAt(p + x + b, "*/", j) <==> OccursAt(p, "*/", j))
  {
    var s := p + x + b;
    var n := |p| + |x|;
    CloserMeans(s);
    CloserMeans(p);
    forall j | |p| - 1 <= j < n ensures !CloserAt(s, j) {
      if j == |p| - 1 {
        assert s[j + 1] == x[0];
      } else {
        assert s[j] == x[j - |p|];
      }
    }
    forall j | 0 <= j < |p| - 1 ensures CloserAt(s, j) <==> CloserAt(p, j) {
      assert s[j] == p[j] && s[j + 1] == p[j + 1];
    }
  }

  /** The pairs of `p + x + b` from the end of the run on are those of `b`,
      shifted. */
  lemma CloserSplitTail(p: string, x: string, b: string)
    ensures forall j :: |p| + |x| <= j ==> (OccursAt(p + x + b, "*/", j) <==> OccursAt(b, "*/", j - |p| - |x|))
  {
    var s := p + x + b;
    var n := |p| + |x|;
    CloserMeans(s);
    CloserMeans(b);
    forall j | n <= j ensures CloserAt(s, j) <==> CloserAt(b, j - n) {
      if j + 1 < |s| {
        assert s[j] == b[j - n] && s[j + 1] == b[j - n + 1];
      }
    }
  }

  /** An occurrence with none before it is the one `Find` gives. */
  lemma FindFirst(s: string, t: string, i: nat)
    requires OccursAt(s, t, i) && forall j :: 0 <= j < i ==> !OccursAt(s, t, j)
    ensures Find(s, t) == Some(i)
  {
  }

  /** A star-slash at `i`, checked for none before it in two stretches, is
      the one `Find` gives. */
  lemma FindCloserPast(s: string, n: nat, i: nat)
    requires n <= i && CloserAt(s, i)
    requires forall j :: 0 <= j < n ==> !CloserAt(s, j)
    requires forall j :: n <= j < i ==> !CloserAt(s, j)
    ensures Find(s, "*/") == Some(i)
  {
    CloserMeans(s);
    FindFirst(s, "*/", i);
  }

  /** The first star-slash of `p`, when there is one, is the first of
      `p + x + b`. */
  lemma CloserInHead(p: string, x: string, b: string)
    requires InlineSpace(x) && Find(p, "*/").Some?
    ensures Find(p + x + b, "*/") == Find(p, "*/")
  {
    var s := p + x + b;
    var k := Find(p, "*/").value;
    CloserSplitHead(p, x, b);
    FindFirst(s, "*/", k);
  }

  /** Before the end of the run, `p + x + b` has no star-slash when `p` has
      none. */
  lemma NoCloserBefore(p: string, x: string, b: string)
    requires InlineSpace(x) && Find(p, "*/").None?
    ensures forall j :: 0 <= j < |p| + |x| ==> !CloserAt(p + x + b, j)
  {
    CloserSplitHead(p, x, b);
    CloserMeans(p + x + b);
  }

  /** The first star-slash of `b`, shifted, is the first one of
      `p + x + b` from the end of the run on. */
  lemma TailCloser(p: string, x: string, b: string, m: nat)
    requires Find(b, "*/") == Some(m)
    ensures CloserAt(p + x + b, |p| + |x| + m)
    ensures forall j :: |p| + |x| <= j < |p| + |x| + m ==> !CloserAt(p + x + b, j)
  {
    CloserSplitTail(p, x, b);
    CloserMeans(p + x + b);
  }

  /** Otherwise it is the first one of `b`, shifted past `p + x`. */
  lemma CloserInTail(p: string, x: string, b: string)
    requires InlineSpace(x) && Find(p, "*/").None? && Find(b, "*/").Some?
    ensures Find(p + x + b, "*/") == Some(|p| + |x| + Find(b, "*/").value)
  {
    var m := Find(b, "*/").value;
    NoCloserBefore(p, x, b);
    TailCloser(p, x, b, m);
    FindCloserPast(p + x + b, |p| + |x|, |p| + |x| + m);
  }

  /** And when neither has one, nor does `p + x + b`. */
  lemma CloserNowhere(p: string, x: string, b: string)
    requires InlineSpace(x) && Find(p, "*/").None? && Find(b, "*/").None?
    ensures Find(p + x + b, "*/").None?
  {
    var s := p + x + b;
    var n := |p| + |x|;
    NoCloserBefore(p, x, b);
    assert forall j :: n <= j ==> !CloserAt(s, j) by {
      CloserSplitTail(p, x, b);
      CloserMeans(s);
      forall j | n <= j ensures !OccursAt(s, "*/", j) {
        assert !OccursAt(b, "*/", j - n);
      }
    }
    CloserMeans(s);
  }

  /** A comment opened in `a` that `a` does not close is closed in `b`, so
      the run after `a` goes with it. */
  lemma ClosedInTail(a: string, x: string, b: string)
    requires InlineSpace(x) && StartsBlockComment(a)
    requires Find(a[2..], "*/").None? && Find(b, "*/").Some?
    ensures StripBlockComments(a + x + b) == StripBlockComments(b[Find(b, "*/").value + 2..])
  {
    ClosedInTailCut(a, x, b);
    BlockStepCloses(a + x + b);
  }

  /** Where that comment ends in `a + x + b`. */
  lemma ClosedInTailCut(a: string, x: string, b: string)
    requires InlineSpace(x) && StartsBlockComment(a)
    requires Find(a[2..], "*/").None? && Find(b, "*/").Some?
    ensures var s := a + x + b;
      StartsBlockComment(s) && Find(s[2..], "*/").Some? &&
      s[Find(s[2..], "*/").value + 4..] == b[Find(b, "*/").value + 2..]
  {
    var s := a + x + b;
    var p := a[2..];
    var m := Find(b, "*/").value;
    var cut := |a| + |x| + m + 2;
    assert s[2..] == p + x + b by {
      HeadOfJoin(a, x, b, 2);
    }
    assert Find(s[2..], "*/") == Some(cut - 4) by {
      CloserInTail(p, x, b);
    }
    assert s[cut..] == b[m + 2..] by {
      TailOfJoin(a, x, b, m + 2);
    }
  }

  /** One step of the block-comment stage at a comment that is closed. */
  lemma BlockStepCloses(s: string)
    requires StartsBlockComment(s) && Find(s[2..], "*/").Some?
    ensures StripBlockComments(s) == StripBlockComments(s[Find(s[2..], "*/").value + 4..])
  {
  }

  /** A comment opened and closed in `a` leaves the run in place. */
  lemma ClosedInHead(a: string, x: string, b: string, k: nat)
    requires InlineSpace(x) && StartsBlockComment(a) && Find(a[2..], "*/") == Some(k)
    ensures StripBlockComments(a + x + b) == StripBlockComments(a[k + 4..] + x + b)
  {
    var s := a + x + b;
    var p := a[2..];
    assert s[2..] == p + x + b by {
      HeadOfJoin(a, x, b, 2);
    }
    assert Find(s[2..], "*/") == Some(k) by {
      CloserInHead(p, x, b);
    }
    assert s[k + 4..] == a[k + 4..] + x + b by {
      HeadOfJoin(a, x, b, k + 4);
    }
    BlockStepCloses(s);
  }

  /** One step of the block-comment stage where no comment is removed. */
  lemma BlockStepKeeps(s: string)
    requires s != [] && !(StartsBlockComment(s) && Find(s[2..], "*/").Some?)
    ensures StripBlockComments(s) == [s[0]] + StripBlockComments(s[1..])
  {
  }

  /** A first character that opens no comment is kept. */
  lemma NotClosedKept(a: string, x: string, b: string)
    requires InlineSpace(x) && a != []
    requires StartsBlockComment(a) ==> Find(a[2..], "*/").None? && Find(b, "*/").None?
    ensures StripBlockComments(a + x + b) == [a[0]] + StripBlockComments(a[1..] + x + b)
  {
    var s := a + x + b;
    HeadOfJoin(a, x, b, 1);
    assert !(StartsBlockComment(s) && Find(s[2..], "*/").Some?) by {
      if StartsBlockComment(s) && |a| >= 2 {
        HeadOfJoin(a, x, b, 2);
        CloserNowhere(a[2..], x, b);
      }
    }
    BlockStepKeeps(s);
  }

  /** The block-comment stage on `a + x + b`, for runs `x` and `y`, as in
      LineGap. */
  lemma {:induction false} BlockGap(a: string, x: string, y: string, b: string) returns (same: bool, a2: string, b2: string)
    requires InlineSpace(x) && InlineSpace(y)
    ensures same ==> StripBlockComments(a + x + b) == StripBlockComments(a + y + b)
    ensures !same ==> StripBlockComments(a + x + b) == a2 + x + b2 && StripBlockComments(a + y + b) == a2 + y + b2
    decreases |a|, 1
  {
    if a == [] {
      NothingBeforeRun(a, x, b);
      NothingBeforeRun(a, y, b);
      NothingBeforeRun(a, x, StripBlockComments(b));
      NothingBeforeRun(a, y, StripBlockComments(b));
      StripBlockKeeps(x, b);
      StripBlockKeeps(y, b);
      return false, [], StripBlockComments(b);
    }
    if StartsBlockComment(a) && Find(a[2..], "*/").Some? {
      same, a2, b2 := BlockGapClosed(a, x, y, b);
    } else if StartsBlockComment(a) && Find(b, "*/").Some? {
      ClosedInTail(a, x, b);
      ClosedInTail(a, y, b);
      return true, [], [];
    } else {
      same, a2, b2 := BlockGapKept(a, x, y, b);
    }
  }

  /** BlockGap where `a` opens a comment that it also closes. */
  lemma {:induction false} BlockGapClosed(a: string, x: string, y: string, b: string) returns (same: bool, a2: string, b2: string)
    requires InlineSpace(x) && InlineSpace(y) && StartsBlockComment(a) && Find(a[2..], "*/").Some?
    ensures same ==> StripBlockComments(a + x + b) == StripBlockComments(a + y + b)
    ensures !same ==> StripBlockComments(a + x + b) == a2 + x + b2 && StripBlockComments(a + y + b) == a2 + y + b2
    decreases |a|, 0
  {
    var k := Find(a[2..], "*/").value;
    ClosedInHead(a, x, b, k);
    ClosedInHead(a, y, b, k);
    same, a2, b2 := BlockGap(a[k + 4..], x, y, b);
  }

  /** BlockGap where the first character of `a` is kept. */
  lemma {:induction false} BlockGapKept(a: string, x: string, y: string, b: string) returns (same: bool, a2: string, b2: string)
    requires InlineSpace(x) && InlineSpace(y) && a != []
    requires StartsBlockComment(a) ==> Find(a[2..], "*/").None? && Find(b, "*/").None?
    ensures same ==> StripBlockComments(a + x + b) == StripBlockComments(a + y + b)
    ensures !same ==> StripBlockComments(a + x + b) == a2 + x + b2 && StripBlockComments(a + y + b) == a2 + y + b2
    decreases |a|, 0
  {
    NotClosedKept(a, x, b);
    NotClosedKept(a, y, b);
    var a1;
    same, a1, b2 := BlockGap(a[1..], x, y, b);
    a2 := [a[0]] + a1;
    ConsBeforeRun(a[0], a1, x, b2);
    ConsBeforeRun(a[0], a1, y, b2);
  }

  /** A leading run of whitespace is dropped whole by `TrimStart`. */
  lemma {:induction false} TrimStartSkip(u: string, b: string)
    requires AllWhitespace(u)
    ensures TrimStart(u + b) == TrimStart(b)
    decreases |u|
  {
    if u != [] {
      HeadOfJoin(u, [], b, 1);
      assert u + [] + b == u + b && u[1..] + [] + b == u[1..] + b;
      TrimStartDrops(u + b);
      TrimStartSkip(u[1..], b);
    } else {
      assert u + b == b;
    }
  }

  /** One step of `TrimStart` at a whitespace character. */
  lemma TrimStartDrops(s: string)
    requires s != [] && IsWhitespace(s[0])
    ensures TrimStart(s) == TrimStart(s[1..])
  {
  }

  /** `TrimStart` stops at a character that is not whitespace. */
  lemma TrimStartStops(s: string)
    requires s != [] && !IsWhitespace(s[0])
    ensures TrimStart(s) == s
  {
  }

  /** `TrimStart` of a text that is not all whitespace stops inside it. */
  lemma {:induction false} TrimStartKeeps(u: string, x: string, b: string)
    requires !AllWhitespace(u)
    ensures TrimStart(u + x + b) == TrimStart(u) + x + b
    decreases |u|
  {
    HeadOfJoin(u, x, b, 1);
    if IsWhitespace(u[0]) {
      assert !AllWhitespace(u[1..]) by {
        var i :| 0 <= i < |u| && !IsWhitespace(u[i]);
        assert u[1..][i - 1] == u[i];
      }
      TrimStartDrops(u + x + b);
      TrimStartDrops(u);
      TrimStartKeeps(u[1..], x, b);
    } else {
      TrimStartStops(u + x + b);
      TrimStartStops(u);
    }
  }

  /** A leading run of whitespace becomes one space, and the collapse goes
      on after the run and whatever whitespace follows it. */
  lemma CollapseRun(u: string, b: string)
    requires u != [] && AllWhitespace(u)
    ensures CollapseWhitespace(u + b) == [' '] + CollapseWhitespace(TrimStart(b))
  {
    HeadOfJoin(u, [], b, 1);
    assert u + [] + b == u + b;
    CollapseStepSpace(u + b);
    TrimStartSkip(u, b);
  }

  /** One step of the collapse at a whitespace character. */
  lemma CollapseStepSpace(s: string)
    requires s != [] && IsWhitespace(s[0])
    ensures CollapseWhitespace(s) == [' '] + CollapseWhitespace(TrimStart(s))
  {
  }

  /** One step of the collapse at another character. */
  lemma CollapseStepKeeps(s: string)
    requires s != [] && !IsWhitespace(s[0])
    ensures CollapseWhitespace(s) == [s[0]] + CollapseWhitespace(s[1..])
  {
  }

  /** The collapse gives one space for the run however long it is. */
  lemma {:induction false} CollapseGap(a: string, x: string, y: string, b: string)
    requires x != [] && y != [] && AllWhitespace(x) && AllWhitespace(y)
    ensures CollapseWhitespace(a + x + b) == CollapseWhitespace(a + y + b)
    decreases |a|
  {
    if a == [] {
      assert a + x + b == x + b && a + y + b == y + b;
      CollapseRun(x, b);
      CollapseRun(y, b);
    } else if !IsWhitespace(a[0]) {
      assert (a + x + b)[0] == a[0] == (a + y + b)[0];
      assert (a + x + b)[1..] == a[1..] + x + b && (a + y + b)[1..] == a[1..] + y + b;
      CollapseGap(a[1..], x, y, b);
    } else if AllWhitespace(a) {
      assert AllWhitespace(a + x) && AllWhitespace(a + y);
      assert a + x + b == (a + x) + b && a + y + b == (a + y) + b;
      CollapseRun(a + x, b);
      CollapseRun(a + y, b);
    } else {
      CollapseInside(a, x, b);
      CollapseInside(a, y, b);
      CollapseGap(TrimStart(a), x, y, b);
    }
  }

  /** A leading run that stops inside `a` is dropped by the collapse's
      `TrimStart` up to the rest of `a`. */
  lemma CollapseInside(a: string, x: string, b: string)
    requires a != [] && IsWhitespace(a[0]) && !AllWhitespace(a)
    ensures |TrimStart(a)| < |a|
    ensures CollapseWhitespace(a + x + b) == [' '] + CollapseWhitespace(TrimStart(a) + x + b)
  {
    assert (a + x + b)[0] == a[0];
    CollapseStepSpace(a + x + b);
    TrimStartKeeps(a, x, b);
    TrimStartDrops(a);
  }



  /** Spaces and tabs between two parts of the code normalise, and so hash,
      as a single space, whatever their number. */
  lemma SpacingSameNormalForm(a: string, b: string, w: string)
    requires InlineSpace(w)
    ensures Normalize(a + " " + b) == Normalize(a + w + b)
  {
    var same1, a1, b1 := LineGap(a, " ", w, b);
    if !same1 {
      var same2, a2, b2 := BlockGap(a1, " ", w, b1);
      if !same2 {
        CollapseGap(a2, " ", w, b2);
      }
    }
  }

  // Letter case: every stage commutes with ToLower.

  lemma LowerCharIdempotent(c: char)
    ensures LowerChar(LowerChar(c)) == LowerChar(c)
    ensures IsWhitespace(LowerChar(c)) == IsWhitespace(c)
    ensures IsLineTerminator(LowerChar(c)) == IsLineTerminator(c)
    ensures (LowerChar(c) == '/') == (c == '/') && (LowerChar(c) == '*') == (c == '*')
  {
  }

  lemma ToLowerSlices(s: string, i: nat, j: nat)
    requires i <= j <= |s|
    ensures ToLower(s)[i..j] == ToLower(s[i..j])
    ensures ToLower(s)[i..] == ToLower(s[i..])
  {
  }

  lemma ToLowerConcat(a: string, b: string)
    ensures ToLower(a + b) == ToLower(a) + ToLower(b)
  {
  }

  lemma {:induction false} LineRestLower(s: string)
    ensures LineRest(ToLower(s)) == ToLower(LineRest(s))
    decreases |s|
  {
    if s != [] {
      LowerCharIdempotent(s[0]);
      ToLowerSlices(s, 1, |s|);
      LineRestLower(s[1..]);
    }
  }

  lemma {:induction false} StripLineLower(s: string)
    ensures StripLineComments(ToLower(s)) == ToLower(StripLineComments(s))
    decreases |s|
  {
    if s != [] {
      var t := ToLower(s);
      LowerCharIdempotent(s[0]);
      if |s| >= 2 {
        LowerCharIdempotent(s[1]);
      }
      if StartsLineComment(s) {
        assert StartsLineComment(t);
        LineStepComment(s);
        LineStepComment(t);
        ToLowerSlices(s, 2, |s|);
        LineRestLower(s[2..]);
        StripLineLower(LineRest(s[2..]));
      } else {
        assert !StartsLineComment(t);
        LineStepKeeps(s);
        LineStepKeeps(t);
        ToLowerSlices(s, 1, |s|);
        StripLineLower(s[1..]);
        ToLowerConcat([s[0]], StripLineComments(s[1..]));
      }
    }
  }

  lemma FindCloserLower(t: string)
    ensures Find(ToLower(t), "*/") == Find(t, "*/")
  {
    var u := ToLower(t);
    forall j | 0 <= j
      ensures OccursAt(u, "*/", j) <==> OccursAt(t, "*/", j)
    {
      if j + 2 <= |t| {
        LowerCharIdempotent(t[j]);
        LowerCharIdempotent(t[j + 1]);
        assert u[j..j + 2] == [u[j], u[j + 1]];
        assert t[j..j + 2] == [t[j], t[j + 1]];
      }
    }
    var a := Find(u, "*/");
    var b := Find(t, "*/");
    if a.Some? && b.Some? {
      assert !(a.value < b.value) && !(b.value < a.value);
    }
  }

  lemma {:induction false} StripBlockLower(s: string)
    ensures StripBlockComments(ToLower(s)) == ToLower(StripBlockComments(s))
    decreases |s|
  {
    if s != [] {
      var t := ToLower(s);
      LowerCharIdempotent(s[0]);
      if |s| >= 2 {
        LowerCharIdempotent(s[1]);
      }
      ToLowerSlices(s, 1, |s|);
      if StartsBlockComment(s) {
        ToLowerSlices(s, 2, |s|);
        FindCloserLower(s[2..]);
      }
      if StartsBlockComment(s) && Find(s[2..], "*/").Some? {
        var k := 2 + Find(s[2..], "*/").value + 2;
        ToLowerSlices(s, k, |s|);
        StripBlockLower(s[k..]);
      } else {
        StripBlockLower(s[1..]);
        ToLowerConcat([s[0]], StripBlockComments(s[1..]));
      }
    }
  }

  lemma {:induction false} TrimStartLower(s: string)
    ensures TrimStart(ToLower(s)) == ToLower(TrimStart(s))
    decreases |s|
  {
    if s != [] {
      LowerCharIdempotent(s[0]);
      ToLowerSlices(s, 1, |s|);
      TrimStartLower(s[1..]);
    }
  }

  lemma {:induction false} TrimEndLower(s: string)
    ensures TrimEnd(ToLower(s)) == ToLower(TrimEnd(s))
    decreases |s|
  {
    if s != [] {
      LowerCharIdempotent(s[|s| - 1]);
      ToLowerSlices(s, 0, |s| - 1);
      TrimEndLower(s[..|s| - 1]);
    }
  }

  lemma {:induction false} CollapseLower(s: string)
    ensures CollapseWhitespace(ToLower(s)) == ToLower(CollapseWhitespace(s))
    decreases |s|
  {
    if s != [] {
      var l := ToLower(s);
      LowerCharIdempotent(s[0]);
      assert l[0] == LowerChar(s[0]);
      if IsWhitespace(s[0]) {
        CollapseStepSpace(s);
        CollapseStepSpace(l);
        TrimStartLower(s);
        CollapseLower(TrimStart(s));
        ToLowerConcat(" ", CollapseWhitespace(TrimStart(s)));
      } else {
        CollapseStepKeeps(s);
        CollapseStepKeeps(l);
        ToLowerSlices(s, 1, |s|);
        CollapseLower(s[1..]);
        ToLowerConcat([s[0]], CollapseWhitespace(s[1..]));
      }
    }
  }

  lemma ToLowerIdempotent(s: string)
    ensures ToLower(ToLower(s)) == ToLower(s)
  {
    forall i | 0 <= i < |s| ensures ToLower(ToLower(s))[i] == ToLower(s)[i] {
      LowerCharIdempotent(s[i]);
    }
  }

  /** Submissions that differ only in the case of letters normalise, and so
      hash, alike. */
  lemma CaseInsensitiveNormalForm(s1: string, s2: string)
    requires ToLower(s1) == ToLower(s2)
    ensures Normalize(s1) == Normalize(s2)
  {
    NormalizeOfLower(s1);
    NormalizeOfLower(s2);
  }

  lemma NormalizeOfLower(s: string)
    ensures Normalize(s) == Normalize(ToLower(s))
  {
    StripLineLower(s);
    var a := StripLineComments(s);
    StripBlockLower(a);
    var b := StripBlockComments(a);
    CollapseLower(b);
    var c := CollapseWhitespace(b);
    TrimStartLower(c);
    TrimEndLower(TrimStart(c));
    ToLowerIdempotent(Trim(c));
  }

  // ---------------------------------------------------------------------
  // Keys, expiry and the entry maps
  // ---------------------------------------------------------------------

  function CodeKey(ejercicioId: int, codigoHash: string): string {
    "code_" + IntToString(ejercicioId) + "_" + codigoHash
  }

  function QuestionsKey(subtemaId: int, dificultad: string): string {
    "questions_" + IntToString(subtemaId) + "_" + dificultad
  }

  /** `(now - timestamp) / DAY > ttl_days`; a TTL that is NaN never expires. */
  predicate Expired(e: CacheEntry, now: int) {
    match e.ttlDays
    case None => false
    case Some(ttl) => now - e.timestamp > ttl * DAY_MS
  }

  /** `Math.floor((now - timestamp) / DAY)`. */
  function EdadDias(timestamp: int, now: int): (d: int)
    ensures d * DAY_MS <= now - timestamp < (d + 1) * DAY_MS
  {
    (now - timestamp) / DAY_MS
  }

  /** The expiry is exactly the TTL: an entry is live up to and including
      `ttl` days after it was written and expired a millisecond later. */
  lemma ExpiryBoundary(e: CacheEntry, ttl: int)
    requires e.ttlDays == Some(ttl)
    ensures !Expired(e, e.timestamp + ttl * DAY_MS)
    ensures Expired(e, e.timestamp + ttl * DAY_MS + 1)
  {
  }

  function LookupCode(m: map<string, CacheEntry>, key: string, now: int): (r: CodeLookup)
    ensures r.CodeHit? <==> key in m && !Expired(m[key], now) && m[key].data.CodeData?
  {
    if key in m && !Expired(m[key], now) && m[key].data.CodeData? then
      CodeHit(m[key].data.feedback, EdadDias(m[key].timestamp, now))
    else
      CodeMiss
  }

  /** `preguntas.length >= cantidad` and `slice(0, cantidad)` on a live entry;
      an entry holding code feedback has no length and so never answers. */
  function LookupQuestions(m: map<string, CacheEntry>, key: string, cantidad: int, now: int): (r: QuestionsLookup)
    ensures r.QuestionsHit? <==>
      key in m && !Expired(m[key], now) && m[key].data.QuestionsData? && |m[key].data.questions| >= cantidad
    ensures r.QuestionsHit? ==> r.questions == Slice(m[key].data.questions, cantidad)
  {
    if key in m && !Expired(m[key], now) && m[key].data.QuestionsData? && |m[key].data.questions| >= cantidad then
      QuestionsHit(Slice(m[key].data.questions, cantidad), EdadDias(m[key].timestamp, now))
    else
      QuestionsMiss
  }

  /** The map after the cleanup: the entries that are not expired. */
  function Cleaned(m: map<string, CacheEntry>, now: int): map<string, CacheEntry> {
    map k | k in m && !Expired(m[k], now) :: m[k]
  }

  /** `m` with the expired entries outside `pending` removed: the cleanup
      part way through. */
  function CleanedBut(m: map<string, CacheEntry>, pending: set<string>, now: int): map<string, CacheEntry> {
    map k | k in m && (k in pending || !Expired(m[k], now)) :: m[k]
  }

  /** Feedback written at `now` is found by any lookup up to `ttl` days later,
      with its age in whole days. */
  lemma StoredCodeFound(m: map<string, CacheEntry>, key: string, f: CodeFeedback, now: int, ttl: int, later: int)
    requires now <= later <= now + ttl * DAY_MS
    ensures LookupCode(m[key := CacheEntry(key, CodeData(f), now, Some(ttl))], key, later)
      == CodeHit(f, (later - now) / DAY_MS)
  {
  }

  /** The cleanup changes no lookup made at the same time. */
  lemma CleanupKeepsLookups(m: map<string, CacheEntry>, key: string, cantidad: int, now: int)
    ensures LookupCode(Cleaned(m, now), key, now) == LookupCode(m, key, now)
    ensures LookupQuestions(Cleaned(m, now), key, cantidad, now) == LookupQuestions(m, key, cantidad, now)
  {
  }

  /** The entry written for new questions: the questions already under the key
      (expired or not) followed by the new ones, stamped `now`. Feedback under
      the key cannot be spread into an array, so the write is abandoned. */
  function AppendQuestions(m: map<string, CacheEntry>, key: string, preguntas: seq<GeneratedQuestion>, now: int, ttl: Option<int>): map<string, CacheEntry> {
    if key in m && m[key].data.CodeData? then m
    else
      var existentes := if key in m then m[key].data.questions else [];
      m[key := CacheEntry(key, QuestionsData(existentes + preguntas), now, ttl)]
  }

  /** The key of a batch: the difficulty of its first question, or "intermedia". */
  function BatchDifficulty(preguntas: seq<GeneratedQuestion>): string {
    if preguntas == [] then "intermedia"
    else JsString(Or(Some(preguntas[0].dificultad), JString("intermedia")))
  }

  /** Questions keep accumulating under one key, and writing refreshes the
      timestamp: questions of an expired entry are served again once a new
      batch is written. */
  lemma ExpiredQuestionsRevived(m: map<string, CacheEntry>, key: string, preguntas: seq<GeneratedQuestion>, now: int, ttl: int)
    requires key in m && m[key].data.QuestionsData? && Expired(m[key], now)
    requires ttl >= 0
    ensures LookupQuestions(m, key, 1, now) == QuestionsMiss
    ensures var n := |m[key].data.questions| + |preguntas|;
      LookupQuestions(AppendQuestions(m, key, preguntas, now, Some(ttl)), key, n, now)
        == QuestionsHit(m[key].data.questions + preguntas, 0)
  {
  }

  /** Every entry is filed under its own key and carries the TTL `ttl`. */
  ghost predicate FiledUnderOwnKeys(m: map<string, CacheEntry>, ttl: Option<int>) {
    forall k :: k in m ==> m[k].key == k && m[k].ttlDays == ttl
  }

  lemma FiledAfterWrite(m: map<string, CacheEntry>, ttl: Option<int>, e: CacheEntry)
    requires FiledUnderOwnKeys(m, ttl) && e.ttlDays == ttl
    ensures FiledUnderOwnKeys(m[e.key := e], ttl)
  {
  }

  // ---------------------------------------------------------------------
  // The service
  // ---------------------------------------------------------------------

  class InMemoryCacheService {
    const md5: string -> string
    /** `parseInt(process.env.CACHE_TTL_DAYS || '7')`; None is NaN. */
    const ttlDays: Option<int>
    var cache: map<string, CacheEntry>

    /** Every entry is filed under its own key and carries the service TTL. */
    ghost predicate Valid()
      reads this
    {
      FiledUnderOwnKeys(cache, ttlDays)
    }

    constructor(md5: string -> string, ttlSetting: string)
      ensures this.md5 == md5
      ensures ttlDays == EnvInt(ttlSetting, "7")
      ensures cache == map[]
      ensures Valid()
    {
      this.md5 := md5;
      ttlDays := EnvInt(ttlSetting, "7");
      cache := map[];
    }

    /** `generarHashCodigo`: the digest of the normal form, which does not
        depend on letter case. */
    function GenerarHashCodigo(codigo: string): (r: string)
      ensures r == md5(Normalize(ToLower(codigo)))
    {
      NormalizeOfLower(codigo);
      md5(Normalize(codigo))
    }

    /** `code_${ejercicio_id}_${hash}`. */
    function CodeKeyOf(codigo: string, ejercicioId: int): string {
      CodeKey(ejercicioId, GenerarHashCodigo(codigo))
    }

    /** Two submissions that differ only in the run of spaces or tabs
        between two parts share their cache key, for every exercise. */
    lemma SpacingSameKey(a: string, b: string, w: string, ejercicioId: int)
      requires InlineSpace(w)
      ensures CodeKeyOf(a + " " + b, ejercicioId) == CodeKeyOf(a + w + b, ejercicioId)
    {
      SpacingSameNormalForm(a, b, w);
    }

    function BuscarCodigo(codigo: string, ejercicioId: int, now: int): (r: CodeLookup)
      reads this
      ensures var key := CodeKeyOf(codigo, ejercicioId);
        r.CodeHit? <==> key in cache && !Expired(cache[key], now) && cache[key].data.CodeData?
    {
      LookupCode(cache, CodeKeyOf(codigo, ejercicioId), now)
    }

    method GuardarCodigo(codigo: string, ejercicioId: int, resultado: CodeFeedback, now: int)
      requires Valid()
      modifies this
      ensures Valid()
      ensures var key := CodeKeyOf(codigo, ejercicioId);
        cache == old(cache)[key := CacheEntry(key, CodeData(resultado), now, ttlDays)]
    {
      var key := CodeKeyOf(codigo, ejercicioId);
      var entry := CacheEntry(key, CodeData(resultado), now, ttlDays);
      FiledAfterWrite(cache, ttlDays, entry);
      cache := cache[key := entry];
    }

    function BuscarPreguntas(subtemaId: int, cantidad: int, dificultad: string, now: int): (r: QuestionsLookup)
      reads this
      ensures var key := QuestionsKey(subtemaId, dificultad);
        r.QuestionsHit? ==> key in cache && cache[key].data.QuestionsData? && r.questions == Slice(cache[key].data.questions, cantidad)
    {
      LookupQuestions(cache, QuestionsKey(subtemaId, dificultad), cantidad, now)
    }

    method GuardarPreguntas(subtemaId: int, preguntas: seq<GeneratedQuestion>, now: int)
      requires Valid()
      modifies this
      ensures Valid()
      ensures cache == AppendQuestions(old(cache), QuestionsKey(subtemaId, BatchDifficulty(preguntas)), preguntas, now, ttlDays)
    {
      var key := QuestionsKey(subtemaId, BatchDifficulty(preguntas));
      if key in cache && cache[key].data.CodeData? {
        return;
      }
      var existentes := if key in cache then cache[key].data.questions else [];
      cache := cache[key := CacheEntry(key, QuestionsData(existentes + preguntas), now, ttlDays)];
    }

    /** `limpiarCacheAntiguo`: deletes the expired entries while walking the
        map, and counts them; the source only logs that count, here it is
        returned. */
    method LimpiarCacheAntiguo(now: int) returns (eliminados: nat)
      requires Valid()
      modifies this
      ensures Valid()
      ensures cache == Cleaned(old(cache), now)
      ensures eliminados == |old(cache)| - |cache|
    {
      var pending := cache.Keys;
      eliminados := 0;
      while pending != {}
        invariant pending <= cache.Keys
        invariant cache == CleanedBut(old(cache), pending, now)
        invariant eliminados + |cache| == |old(cache)|
        decreases pending
      {
        var k :| k in pending;
        if Expired(cache[k], now) {
          cache := cache - {k};
          eliminados := eliminados + 1;
        }
        pending := pending - {k};
      }
    }

    function GetStats(): (r: (nat, Option<int>))
      reads this
      ensures r.0 == |cache.Keys| && r.1 == ttlDays
    {
      (|cache.Keys|, ttlDays)
    }
  }
}
