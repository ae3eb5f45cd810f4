/** The request-checking middlewares (validator): a positive-integer route
    parameter, page/limit pagination with defaults and bounds, and the
    sanitiser that strips `<script>` blocks from every string of the body,
    query and route parameters. The middlewares rewrite the request in
    place; the sanitiser is a structural recursion. */
module Validator {
  import opened Wrappers
  import opened Text
  import opened Json

  /** The 400 answer of a failed check. */
  datatype ErrorReply = ErrorReply(status: int, error: string, message: string, field: string, value: Option<Json>)

  /** The parts of an Express request and response the middlewares touch:
      the route parameters and query, the body, the error answer sent (if
      any) and the number of times `next()` was called. */
  class HttpExchange {
    var params: map<string, string>
    var query: map<string, string>
    var body: Json
    var response: Option<ErrorReply>
    var nextCalls: nat

    constructor (params: map<string, string>, query: map<string, string>, body: Json)
      ensures this.params == params && this.query == query && this.body == body
      ensures response == None && nextCalls == 0
    {
      this.params := params;
      this.query := query;
      this.body := body;
      response := None;
      nextCalls := 0;
    }
  }

  function Entry(m: map<string, string>, key: string): Option<string> {
    if key in m then Some(m[key]) else None
  }

  /** `parseInt` without a radix of a value that may be `undefined` (which
      reads as NaN). */
  function ParseEntry(raw: Option<string>): Option<int> {
    match raw
    case None => None
    case Some(s) => ParseInt(s)
  }

  // ------------------------------------------------------ validateIdParam

  function IdRejection(paramName: string, id: Option<string>): ErrorReply {
    ErrorReply(400, "ValidationError",
      "El par\U{E1}metro '" + paramName + "' debe ser un n\U{FA}mero entero positivo",
      paramName, match id case None => None case Some(s) => Some(JString(s)))
  }

  /** The route parameter as a positive integer, if `parseInt(id, 10)` reads
      it as one. */
  function PositiveId(id: Option<string>): Option<int> {
    var n := match id case None => None case Some(s) => ParseDecimal(s);
    if n.Some? && n.value > 0 then n else None
  }

  /** `validateIdParam(paramName)`: a parameter reading as a positive integer
      is replaced by its decimal text and the request goes on; anything else
      is answered with 400 and stops there. */
  method ValidateIdParam(ex: HttpExchange, paramName: string)
    modifies ex
    ensures var id := PositiveId(Entry(old(ex.params), paramName));
      if id.Some? then
        ex.params == old(ex.params)[paramName := IntToString(id.value)]
        && ex.nextCalls == old(ex.nextCalls) + 1 && ex.response == old(ex.response)
      else
        ex.params == old(ex.params) && ex.nextCalls == old(ex.nextCalls)
        && ex.response == Some(IdRejection(paramName, Entry(old(ex.params), paramName)))
    ensures ex.query == old(ex.query) && ex.body == old(ex.body)
  {
    var id := Entry(ex.params, paramName);
    var numericId := PositiveId(id);
    if numericId.None? {
      ex.response := Some(IdRejection(paramName, id));
      return;
    }
    ex.params := ex.params[paramName := IntToString(numericId.value)];
    ex.nextCalls := ex.nextCalls + 1;
  }

  /** The rewritten parameter is accepted again with the same value, so
      running the check twice changes nothing more. */
  lemma IdRewriteStable(id: Option<string>)
    requires PositiveId(id).Some?
    ensures PositiveId(Some(IntToString(PositiveId(id).value))) == PositiveId(id)
    ensures IntToString(PositiveId(id).value) == NatToString(PositiveId(id).value)
  {
    ParseIntNatToString(PositiveId(id).value);
  }

  /** Zero is not a positive id. */
  lemma IdRefusesZero()
    ensures ParseDecimal("0") == Some(0)
    ensures PositiveId(Some("0")) == None
  {
    assert NatToString(0) == "0";
    ParseIntNatToString(0);
  }

  /** A minus sign is read as such, so a negative number is refused. */
  lemma IdRefusesNegative(n: nat)
    ensures ParseDecimal("-" + NatToString(n)) == Some(-(n as int))
    ensures PositiveId(Some("-" + NatToString(n))) == None
  {
    var digits := NatToString(n);
    NegativeTextShape(digits);
    DigitPrefixOfDigits(digits);
    DigitsValueOfNatToString(n);
  }

  /** A missing parameter, and text that starts with neither a digit, a sign
      nor whitespace, read as NaN and are refused. */
  lemma IdRefusesNonNumeric(s: string)
    requires s == [] || (!IsDigit(s[0]) && !IsWhitespace(s[0]) && s[0] != '-' && s[0] != '+')
    ensures ParseDecimal(s).None?
    ensures PositiveId(Some(s)) == None
    ensures PositiveId(None) == None
  {
    if s != [] {
      assert TrimStart(s) == s;
    }
  }

  // --------------------------------------------------- validatePagination

  /** `parseInt(raw) || d`: NaN and 0 fall back to the default. */
  function OrDefault(raw: Option<string>, d: int): int {
    var n := ParseEntry(raw);
    if n.None? || n.value == 0 then d else n.value
  }

  function PageRejection(page: int): ErrorReply {
    ErrorReply(400, "ValidationError", "El par\U{E1}metro \"page\" debe ser mayor o igual a 1", "page", Some(JNumber(page)))
  }

  function LimitRejection(limit: int): ErrorReply {
    ErrorReply(400, "ValidationError", "El par\U{E1}metro \"limit\" debe estar entre 1 y 100", "limit", Some(JNumber(limit)))
  }

  /** The decision of `validatePagination` on the raw `page` and `limit`. */
  function Pagination(page: Option<string>, limit: Option<string>): Result<(int, int), ErrorReply> {
    var p := OrDefault(page, 1);
    var l := OrDefault(limit, 10);
    if p < 1 then Err(PageRejection(p))
    else if l < 1 || l > 100 then Err(LimitRejection(l))
    else Ok((p, l))
  }

  /** Pagination passes exactly when the page (default 1) is at least 1 and
      the limit (default 10) lies in 1..100; a bad page is reported before a
      bad limit. */
  lemma PaginationMeans(page: Option<string>, limit: Option<string>)
    ensures var r := Pagination(page, limit);
      && (r.Ok? <==> OrDefault(page, 1) >= 1 && 1 <= OrDefault(limit, 10) <= 100)
      && (r.Ok? ==> r.value.0 >= 1 && 1 <= r.value.1 <= 100)
      && (r.Err? ==> r.error.status == 400)
      && (OrDefault(page, 1) < 1 ==> r == Err(PageRejection(OrDefault(page, 1))))
  {
  }

  /** Missing, unreadable and zero values take the defaults 1 and 10. */
  lemma PaginationDefaults(s: string)
    requires ParseInt(s).None? || ParseInt(s) == Some(0)
    ensures Pagination(None, None) == Ok((1, 10))
    ensures Pagination(Some(s), Some(s)) == Ok((1, 10))
  {
  }

  /** A page and limit written in hexadecimal after `0x` are read in base
      16, as a radix-less `parseInt` does. */
  lemma PaginationReadsHex(p: string, l: string)
    requires p != [] && forall i :: 0 <= i < |p| ==> IsHexDigit(p[i])
    requires l != [] && forall i :: 0 <= i < |l| ==> IsHexDigit(l[i])
    requires HexDigitsValue(p) >= 1 && 1 <= HexDigitsValue(l) <= 100
    ensures Pagination(Some("0x" + p), Some("0x" + l)) == Ok((HexDigitsValue(p), HexDigitsValue(l)))
  {
    OrDefaultOfHex(p, 1);
    OrDefaultOfHex(l, 10);
  }

  lemma OrDefaultOfHex(h: string, d: int)
    requires h != [] && forall i :: 0 <= i < |h| ==> IsHexDigit(h[i])
    requires HexDigitsValue(h) != 0
    ensures OrDefault(Some("0x" + h), d) == HexDigitsValue(h)
  {
    ParseIntHex(h);
  }

  /** The decimal text of a positive number reads back as that number. */
  lemma OrDefaultOfText(n: int, d: int)
    requires n >= 1
    ensures OrDefault(Some(IntToString(n)), d) == n
  {
    assert IntToString(n) == NatToString(n);
    ParseIntNatToString(n);
  }

  /** The rewritten `page` and `limit` pass again with the same values. */
  lemma PaginationStable(page: Option<string>, limit: Option<string>)
    requires Pagination(page, limit).Ok?
    ensures var (p, l) := Pagination(page, limit).value;
      Pagination(Some(IntToString(p)), Some(IntToString(l))) == Ok((p, l))
  {
    var (p, l) := Pagination(page, limit).value;
    OrDefaultOfText(p, 1);
    OrDefaultOfText(l, 10);
  }

  /** `validatePagination`: on success the query holds the decimal texts of
      the checked values and the request goes on; on failure the 400 answer
      is sent and the query is left as it was. */
  method ValidatePagination(ex: HttpExchange)
    modifies ex
    ensures var r := Pagination(Entry(old(ex.query), "page"), Entry(old(ex.query), "limit"));
      match r
      case Ok((p, l)) =>
        ex.query == old(ex.query)["page" := IntToString(p)]["limit" := IntToString(l)]
        && ex.nextCalls == old(ex.nextCalls) + 1 && ex.response == old(ex.response)
      case Err(e) =>
        ex.query == old(ex.query) && ex.nextCalls == old(ex.nextCalls) && ex.response == Some(e)
    ensures ex.params == old(ex.params) && ex.body == old(ex.body)
  {
    var query := ex.query;
    ghost var r := Pagination(Entry(query, "page"), Entry(query, "limit"));
    var page := OrDefault(Entry(query, "page"), 1);
    var limit := OrDefault(Entry(query, "limit"), 10);
    if page < 1 {
      assert r == Err(PageRejection(page));
      ex.response := Some(PageRejection(page));
      return;
    }
    if limit < 1 || limit > 100 {
      assert r == Err(LimitRejection(limit));
      ex.response := Some(LimitRejection(limit));
      return;
    }
    assert r == Ok((page, limit));
    query := query["page" := IntToString(page)];
    ex.query := query["limit" := IntToString(limit)];
    ex.nextCalls := ex.nextCalls + 1;
  }

  // --------------------------------------------------------------- sanitize

  const OPEN_TAG := "<script"
  const CLOSE_TAG := "</script>"

  /** The length of the `<script…>…</script>` block the sanitiser's pattern
      matches at the start of `s`, if any: `<script` in any case, a character
      that ends the word, then everything up to the first `</script>` in any
      case, included. */
  function ScriptAt(s: string): (r: Option<nat>)
    ensures r.Some? ==> 16 <= r.value <= |s|
  {
    if |s| > 7 && ToLower(s[..7]) == OPEN_TAG && !IsWordChar(s[7]) then
      match Find(ToLower(s[7..]), CLOSE_TAG)
      case Some(k) => Some(7 + k + 9)
      case None => None
    else None
  }

  /** A pattern seen through the length of its match at the start of a
      text: none, or between 1 and the length of the text. */
  ghost predicate IsMatcher(at: string -> Option<nat>) {
    forall t :: at(t).Some? ==> 0 < at(t).value <= |t|
  }

  lemma ScriptAtIsMatcher()
    ensures IsMatcher(ScriptAt)
  {
    forall t | ScriptAt(t).Some? ensures 0 < ScriptAt(t).value <= |t| {
    }
  }

  /** No match starts anywhere in `s`. */
  predicate NoMatch(at: string -> Option<nat>, s: string) {
    forall i :: 0 <= i < |s| ==> at(s[i..]).None?
  }

  /** `replace(pattern, "")` with the global flag: scanning left to right,
      each match found is removed and the scan resumes after it. */
  function RemoveAll(at: string -> Option<nat>, s: string): (r: string)
    requires IsMatcher(at)
    ensures |r| <= |s|
    decreases |s|
  {
    if s == [] then []
    else
      match at(s)
      case Some(n) => RemoveAll(at, s[n..])
      case None => [s[0]] + RemoveAll(at, s[1..])
  }

  /** Without a match, nothing is removed. */
  lemma {:induction false} RemoveNothing(at: string -> Option<nat>, s: string)
    requires IsMatcher(at) && NoMatch(at, s)
    ensures RemoveAll(at, s) == s
    decreases |s|
  {
    if s != [] {
      assert s[0..] == s;
      assert NoMatch(at, s[1..]) by {
        forall i | 0 <= i < |s[1..]| ensures at(s[1..][i..]).None? {
          assert s[1..][i..] == s[i + 1..];
        }
      }
      RemoveNothing(at, s[1..]);
    }
  }

  /** A match anywhere makes the result shorter. */
  lemma {:induction false} RemoveShrinks(at: string -> Option<nat>, s: string, i: nat)
    requires IsMatcher(at) && i < |s| && at(s[i..]).Some?
    ensures |RemoveAll(at, s)| < |s|
    decreases |s|
  {
    if i == 0 {
      assert s[0..] == s;
    } else if at(s).None? {
      assert s[1..][i - 1..] == s[i..];
      RemoveShrinks(at, s[1..], i - 1);
    }
  }

  /** Characters before which no match starts are kept, in order. */
  lemma {:induction false} RemoveKeepsPrefix(at: string -> Option<nat>, s: string, n: nat)
    requires IsMatcher(at) && n <= |s|
    requires forall k :: 0 <= k < n ==> at(s[k..]).None?
    ensures RemoveAll(at, s) == s[..n] + RemoveAll(at, s[n..])
    decreases n
  {
    if n > 0 {
      assert s[0..] == s;
      forall k | 0 <= k < n - 1 ensures at(s[1..][k..]).None? {
        assert s[1..][k..] == s[k + 1..];
      }
      RemoveKeepsPrefix(at, s[1..], n - 1);
    }
  }

  /** The evidently intended removal: passes are repeated until one removes
      nothing. */
  function RemoveUntilStable(at: string -> Option<nat>, s: string): (r: string)
    requires IsMatcher(at)
    ensures |r| <= |s|
    decreases |s|
  {
    var t := RemoveAll(at, s);
    if |t| < |s| then RemoveUntilStable(at, t) else t
  }

  /** The repeated removal leaves no match, and repeating it changes nothing
      more. */
  lemma {:induction false} RemoveUntilStableMeans(at: string -> Option<nat>, s: string)
    requires IsMatcher(at)
    ensures NoMatch(at, RemoveUntilStable(at, s))
    ensures RemoveUntilStable(at, RemoveUntilStable(at, s)) == RemoveUntilStable(at, s)
    decreases |s|
  {
    var t := RemoveAll(at, s);
    if |t| < |s| {
      RemoveUntilStableMeans(at, t);
    } else {
      forall i | 0 <= i < |s| ensures at(s[i..]).None? {
        if at(s[i..]).Some? {
          RemoveShrinks(at, s, i);
        }
      }
      RemoveNothing(at, s);
    }
  }

  /** No block starts where one of the first seven characters is not the
      matching character of `<script` in either case. */
  lemma NotOpenAt(s: string, j: nat)
    requires j < 7 && j < |s| && LowerChar(s[j]) != OPEN_TAG[j]
    ensures ScriptAt(s).None?
  {
    assert |s| > 7 ==> ToLower(s[..7])[j] == LowerChar(s[j]);
  }

  /** Text that is already lower case is left alone by `toLowerCase`. */
  lemma LowerIdentity(s: string)
    requires forall i :: 0 <= i < |s| ==> !('A' <= s[i] <= 'Z') && !('\U{C0}' <= s[i] <= '\U{DE}')
    ensures ToLower(s) == s
  {
  }

  /** `toLowerCase` commutes with taking an infix. */
  lemma LowerInfix(s: string, a: nat, b: nat)
    requires a <= b <= |s|
    ensures ToLower(s)[a..b] == ToLower(s[a..b])
  {
  }

  /** When `t` does not occur at 0 but occurs at 1, its first occurrence is 1. */
  lemma FindAtOne(u: string, t: string)
    requires t != [] && u != [] && u[0] != t[0] && OccursAt(u, t, 1)
    ensures Find(u, t) == Some(1)
  {
    assert !OccursAt(u, t, 0) by {
      assert |t| <= |u| ==> u[0..|t|][0] == u[0];
    }
  }

  const BLOCK := "<script></script>"

  /** An empty block at the start of a text is matched, 17 characters long. */
  lemma BlockThen(rest: string)
    ensures ScriptAt(BLOCK + rest) == Some(17)
  {
    var s := BLOCK + rest;
    assert s[..17] == BLOCK;
    assert s[..7] == BLOCK[..7] == OPEN_TAG;
    assert s[7] == BLOCK[7] == '>';
    LowerIdentity(OPEN_TAG);
    var u := ToLower(s[7..]);
    assert s[7..][1..10] == s[8..17] == BLOCK[8..17] == CLOSE_TAG;
    LowerInfix(s[7..], 1, 10);
    LowerIdentity(CLOSE_TAG);
    assert u[0] == '>';
    FindAtOne(u, CLOSE_TAG);
  }

  /** One pass of the script pattern's global replacement. */
  function StripScripts(s: string): string {
    ScriptAtIsMatcher();
    RemoveAll(ScriptAt, s)
  }

  /** `sanitize` on a string as written: one pass of the replacement, then
      `trim`. */
  function SanitizeStringAsWritten(s: string): (r: string)
    ensures |r| <= |s|
    ensures NoMatch(ScriptAt, s) ==> r == Trim(s)
  {
    ScriptAtIsMatcher();
    assert NoMatch(ScriptAt, s) ==> StripScripts(s) == s by {
      if NoMatch(ScriptAt, s) {
        RemoveNothing(ScriptAt, s);
      }
    }
    Trim(StripScripts(s))
  }

  const SPLIT_HEAD := "<scr"
  const SPLIT_TAIL := "ipt></script>"

  /** `<scr` followed by a `<` starts no block, and is kept. */
  lemma SplitHeadKept(rest: string)
    requires rest != [] && rest[0] == '<'
    ensures StripScripts(SPLIT_HEAD + rest) == SPLIT_HEAD + StripScripts(rest)
  {
    ScriptAtIsMatcher();
    var x := SPLIT_HEAD + rest;
    forall k | 0 <= k < |SPLIT_HEAD| ensures ScriptAt(x[k..]).None? {
      if k == 0 {
        assert x[0..][4] == rest[0];
        NotOpenAt(x[0..], 4);
      } else {
        assert x[k..][0] == SPLIT_HEAD[k];
        NotOpenAt(x[k..], 0);
      }
    }
    RemoveKeepsPrefix(ScriptAt, x, 4);
    assert x[..4] == SPLIT_HEAD && x[4..] == rest;
  }

  /** An empty block at the start is removed and the scan resumes after it. */
  lemma BlockRemoved(rest: string)
    ensures StripScripts(BLOCK + rest) == StripScripts(rest)
  {
    ScriptAtIsMatcher();
    BlockThen(rest);
    assert (BLOCK + rest)[17..] == rest;
  }

  /** A text shorter than the shortest block is kept whole. */
  lemma ShortKept(t: string)
    requires |t| < 16
    ensures StripScripts(t) == t
  {
    ScriptAtIsMatcher();
    forall i | 0 <= i < |t| ensures ScriptAt(t[i..]).None? {
    }
    RemoveNothing(ScriptAt, t);
  }

  /** A lone block is removed whole. */
  lemma LoneBlockRemoved()
    ensures ScriptAt(BLOCK) == Some(17) && !NoMatch(ScriptAt, BLOCK)
    ensures StripScripts(BLOCK) == [] && SanitizeStringAsWritten(BLOCK) == ""
  {
    BlockRemoved([]);
    BlockThen([]);
    assert BLOCK + [] == BLOCK;
    assert BLOCK[0..] == BLOCK;
  }

  /** One pass over `<scr`, an empty block, then a short rest removes the
      block and joins `<scr` to the rest. */
  lemma OnePassJoins(t: string)
    requires |t| < 16
    ensures StripScripts(SPLIT_HEAD + (BLOCK + t)) == SPLIT_HEAD + t
  {
    SplitHeadKept(BLOCK + t);
    BlockRemoved(t);
    ShortKept(t);
  }

  /** One pass is not enough: in `<scr<script></script>ipt></script>` the
      removal of the inner block joins the two halves of an outer one, so the
      sanitised text is itself a script block, and sanitising it again
      removes it. */
  lemma OnePassLeavesScript(t: string)
    requires t == SPLIT_TAIL
    ensures SanitizeStringAsWritten(SPLIT_HEAD + (BLOCK + t)) == BLOCK
    ensures ScriptAt(BLOCK) == Some(17) && !NoMatch(ScriptAt, BLOCK)
    ensures SanitizeStringAsWritten(BLOCK) == ""
  {
    OnePassJoins(t);
    BlockSplits();
    TrimIdentity(BLOCK);
    LoneBlockRemoved();
  }

  /** `<scr` and `ipt></script>` make up an empty block. */
  lemma BlockSplits()
    ensures SPLIT_HEAD + SPLIT_TAIL == BLOCK
  {
    assert |SPLIT_HEAD + SPLIT_TAIL| == |BLOCK|;
    forall i | 0 <= i < |BLOCK| ensures (SPLIT_HEAD + SPLIT_TAIL)[i] == BLOCK[i] {
    }
  }

  /** `sanitize` on a string, with the removal repeated until no block is
      left. */
  function SanitizeString(s: string): (r: string)
    ensures |r| <= |s|
    ensures NoMatch(ScriptAt, s) ==> r == Trim(s)
  {
    ScriptAtIsMatcher();
    assert NoMatch(ScriptAt, s) ==> RemoveUntilStable(ScriptAt, s) == s by {
      if NoMatch(ScriptAt, s) {
        RemoveNothing(ScriptAt, s);
      }
    }
    Trim(RemoveUntilStable(ScriptAt, s))
  }

  /** Where one pass already leaves no block, the sanitiser as written and
      the corrected one agree. */
  lemma OnePassSuffices(s: string)
    requires NoMatch(ScriptAt, StripScripts(s))
    ensures SanitizeStringAsWritten(s) == SanitizeString(s)
  {
    ScriptAtIsMatcher();
    var t := RemoveAll(ScriptAt, s);
    RemoveNothing(ScriptAt, t);
    if |t| == |s| {
      forall i | 0 <= i < |s| ensures ScriptAt(s[i..]).None? {
        if ScriptAt(s[i..]).Some? {
          RemoveShrinks(ScriptAt, s, i);
        }
      }
      RemoveNothing(ScriptAt, s);
    }
    assert RemoveUntilStable(ScriptAt, s) == t;
  }

  /** A block found in a prefix of a text is found in the text too. */
  lemma ScriptAtExtends(p: string, x: string)
    requires p <= x && ScriptAt(p).Some?
    ensures ScriptAt(x).Some?
  {
    assert x[..7] == p[..7] && x[7] == p[7];
    var lp := ToLower(p[7..]);
    var lx := ToLower(x[7..]);
    var k := Find(lp, CLOSE_TAG).value;
    forall i | k <= i < k + 9 ensures lx[i] == lp[i] {
      assert x[7..][i] == p[7..][i];
    }
    assert lx[k..k + 9] == lp[k..k + 9];
    assert OccursAt(lx, CLOSE_TAG, k);
  }

  /** A match found in a prefix of a text is found in the text too. */
  ghost predicate PrefixClosed(at: string -> Option<nat>) {
    forall p, x :: p <= x && at(p).Some? ==> at(x).Some?
  }

  lemma ScriptAtPrefixClosed()
    ensures PrefixClosed(ScriptAt)
  {
    forall p, x | p <= x && ScriptAt(p).Some? ensures ScriptAt(x).Some? {
      ScriptAtExtends(p, x);
    }
  }

  /** A slice of a text without matches of a prefix-closed pattern has
      none either. */
  lemma SliceKeepsNoMatch(at: string -> Option<nat>, r: string, a: nat, b: nat)
    requires PrefixClosed(at) && NoMatch(at, r) && a <= b <= |r|
    ensures NoMatch(at, r[a..b])
  {
    forall i | 0 <= i < b - a ensures at(r[a..b][i..]).None? {
      assert r[a..b][i..] <= r[a + i..];
      assert at(r[a + i..]).None?;
    }
  }

  /** Trimming a text without matches of a prefix-closed pattern leaves
      none. */
  lemma TrimKeepsNoMatch(at: string -> Option<nat>, r: string)
    requires PrefixClosed(at) && NoMatch(at, r)
    ensures NoMatch(at, Trim(r))
  {
    var a, b := TrimIsSlice(r);
    SliceKeepsNoMatch(at, r, a, b);
  }

  /** The corrected sanitiser leaves no script block in a string. */
  lemma SanitizeStringClean(s: string)
    ensures NoMatch(ScriptAt, SanitizeString(s))
  {
    ScriptAtIsMatcher();
    RemoveUntilStableMeans(ScriptAt, s);
    ScriptAtPrefixClosed();
    TrimKeepsNoMatch(ScriptAt, RemoveUntilStable(ScriptAt, s));
  }

  /** Sanitising the corrected sanitiser's result again changes nothing. */
  lemma SanitizeStringIdempotent(s: string)
    ensures SanitizeString(SanitizeString(s)) == SanitizeString(s)
  {
    ScriptAtIsMatcher();
    var t := SanitizeString(s);
    SanitizeStringClean(s);
    RemoveNothing(ScriptAt, t);
    assert RemoveUntilStable(ScriptAt, t) == t;
    TrimIdentity(t);
  }

  /** The traversal of `sanitize` with a given cleaner for strings: strings
      are cleaned, arrays and objects are rebuilt element by element and key
      by key, everything else is returned as is. */
  function SanitizeWith(clean: string -> string, v: Json): (r: Json)
    decreases v
    ensures v.JString? <==> r.JString?
    ensures v.JArray? <==> r.JArray?
    ensures v.JObject? <==> r.JObject?
    ensures v.JArray? ==> |r.items| == |v.items|
    ensures v.JObject? ==> |r.fields| == |v.fields| && forall i :: 0 <= i < |v.fields| ==> r.fields[i].0 == v.fields[i].0
    ensures !v.JString? && !v.JArray? && !v.JObject? ==> r == v
  {
    match v
    case JString(s) => JString(clean(s))
    case JArray(items) => JArray(seq(|items|, i requires 0 <= i < |items| => SanitizeWith(clean, items[i])))
    case JObject(fields) => JObject(seq(|fields|, i requires 0 <= i < |fields| => (fields[i].0, SanitizeWith(clean, fields[i].1))))
    case _ => v
  }

  /** `sanitize` as written: one pass of the replacement on every string. A
      string without a script block is only trimmed. */
  function Sanitize(v: Json): (r: Json)
    ensures v.JString? <==> r.JString?
    ensures v.JString? ==> r == JString(SanitizeStringAsWritten(v.s))
    ensures v.JObject? ==> r.JObject? && |r.fields| == |v.fields|
    ensures !v.JString? && !v.JArray? && !v.JObject? ==> r == v
  {
    SanitizeWith(SanitizeStringAsWritten, v)
  }

  /** The evidently intended `sanitize`: the removal repeated on every
      string. */
  function SanitizeCorrected(v: Json): (r: Json)
    ensures v.JString? <==> r.JString?
    ensures v.JString? ==> r == JString(SanitizeString(v.s))
    ensures v.JObject? ==> r.JObject? && |r.fields| == |v.fields|
    ensures !v.JString? && !v.JArray? && !v.JObject? ==> r == v
  {
    SanitizeWith(SanitizeString, v)
  }

  /** The sanitiser keeps the shape: the same kind of value, arrays of the
      same length with each element sanitised in place, objects with the same
      keys in the same order, each value sanitised. */
  lemma SanitizeShape(v: Json)
    ensures v.JString? <==> Sanitize(v).JString?
    ensures v.JString? ==> Sanitize(v) == JString(SanitizeStringAsWritten(v.s))
    ensures v.JArray? ==>
      (&& Sanitize(v).JArray? && |Sanitize(v).items| == |v.items|
       && forall i :: 0 <= i < |v.items| ==> Sanitize(v).items[i] == Sanitize(v.items[i]))
    ensures v.JObject? ==>
      (&& Sanitize(v).JObject? && |Sanitize(v).fields| == |v.fields|
       && forall i :: 0 <= i < |v.fields| ==> Sanitize(v).fields[i] == (v.fields[i].0, Sanitize(v.fields[i].1)))
    ensures !v.JString? && !v.JArray? && !v.JObject? ==> Sanitize(v) == v
  {
  }

  /** One pass is not idempotent on a request body either: sanitising the
      body `<scr<script></script>ipt></script>` leaves a script block that a
      second pass would remove. */
  lemma SanitizeNotIdempotent()
    ensures Sanitize(JString(SPLIT_HEAD + (BLOCK + SPLIT_TAIL))) == JString(BLOCK)
    ensures Sanitize(Sanitize(JString(SPLIT_HEAD + (BLOCK + SPLIT_TAIL)))) == JString("")
  {
    var x := SPLIT_HEAD + (BLOCK + SPLIT_TAIL);
    OnePassLeavesScript(SPLIT_TAIL);
    assert Sanitize(JString(x)) == JString(BLOCK);
  }

  /** The value holds no script block in any of its strings. */
  predicate NoScriptIn(v: Json)
    decreases v
  {
    match v
    case JString(s) => NoMatch(ScriptAt, s)
    case JArray(items) => forall i :: 0 <= i < |items| ==> NoScriptIn(items[i])
    case JObject(fields) => forall i :: 0 <= i < |fields| ==> NoScriptIn(fields[i].1)
    case _ => true
  }

  /** The corrected sanitiser leaves no script block anywhere in a value. */
  lemma {:induction false} SanitizeCorrectedClean(v: Json)
    ensures NoScriptIn(SanitizeCorrected(v))
    decreases v
  {
    match v
    case JString(s) =>
      SanitizeStringClean(s);
    case JArray(items) =>
      var once := SanitizeCorrected(v).items;
      forall i | 0 <= i < |items| ensures NoScriptIn(once[i]) {
        SanitizeCorrectedClean(items[i]);
      }
    case JObject(fields) =>
      var once := SanitizeCorrected(v).fields;
      forall i | 0 <= i < |fields| ensures NoScriptIn(once[i].1) {
        SanitizeCorrectedClean(fields[i].1);
      }
    case _ =>
  }

  /** The traversal with an idempotent cleaner is idempotent, at any depth. */
  lemma {:induction false} SanitizeWithIdempotent(clean: string -> string, v: Json)
    requires forall s :: clean(clean(s)) == clean(s)
    ensures SanitizeWith(clean, SanitizeWith(clean, v)) == SanitizeWith(clean, v)
    decreases v
  {
    match v
    case JString(s) =>
    case JArray(items) =>
      var once := SanitizeWith(clean, v).items;
      forall i | 0 <= i < |items| ensures SanitizeWith(clean, once[i]) == once[i] {
        SanitizeWithIdempotent(clean, items[i]);
      }
      assert SanitizeWith(clean, SanitizeWith(clean, v)).items == once;
    case JObject(fields) =>
      var once := SanitizeWith(clean, v).fields;
      forall i | 0 <= i < |fields| ensures (once[i].0, SanitizeWith(clean, once[i].1)) == once[i] {
        SanitizeWithIdempotent(clean, fields[i].1);
      }
      assert SanitizeWith(clean, SanitizeWith(clean, v)).fields == once;
    case _ =>
  }

  /** Sanitising a value with the corrected sanitiser again changes nothing. */
  lemma SanitizeCorrectedIdempotent(v: Json)
    ensures SanitizeCorrected(SanitizeCorrected(v)) == SanitizeCorrected(v)
  {
    forall s ensures SanitizeString(SanitizeString(s)) == SanitizeString(s) {
      SanitizeStringIdempotent(s);
    }
    SanitizeWithIdempotent(SanitizeString, v);
  }

  /** Property access commutes with the sanitiser: the sanitised object has
      the same keys, each holding the sanitised value. */
  lemma {:induction false} SanitizeLookup(fields: seq<(string, Json)>, key: string)
    ensures Get(Sanitize(JObject(fields)), key)
      == match Get(JObject(fields), key) case None => None case Some(x) => Some(Sanitize(x))
  {
    var out := Sanitize(JObject(fields)).fields;
    if fields != [] {
      var init := fields[..|fields| - 1];
      assert out[..|out| - 1] == Sanitize(JObject(init)).fields;
      SanitizeLookup(init, key);
    }
  }

  /** Every value of a map passed through `f`. */
  function MapValues(f: string -> string, m: map<string, string>): (r: map<string, string>)
    ensures r.Keys == m.Keys
  {
    map k | k in m :: f(m[k])
  }

  /** Mapping an idempotent `f` over the values is idempotent. */
  lemma MapValuesIdempotent(f: string -> string, m: map<string, string>)
    requires forall s :: f(f(s)) == f(s)
    ensures MapValues(f, MapValues(f, m)) == MapValues(f, m)
  {
  }

  /** The query or the route parameters with every value sanitised as
      written. */
  function SanitizeMap(m: map<string, string>): (r: map<string, string>)
    ensures r.Keys == m.Keys
  {
    MapValues(SanitizeStringAsWritten, m)
  }

  /** A query value or parameter without a script block is only trimmed. */
  lemma SanitizeMapTrimsClean(m: map<string, string>, k: string)
    requires k in m && NoMatch(ScriptAt, m[k])
    ensures SanitizeMap(m)[k] == Trim(m[k])
  {
  }

  /** One pass is not idempotent on the query: a value
      `<scr<script></script>ipt></script>` is sanitised to a script block. */
  lemma SanitizeMapNotIdempotent(m: map<string, string>, k: string)
    requires k in m && m[k] == SPLIT_HEAD + (BLOCK + SPLIT_TAIL)
    ensures SanitizeMap(m)[k] == BLOCK && !NoMatch(ScriptAt, SanitizeMap(m)[k])
    ensures SanitizeMap(SanitizeMap(m))[k] == ""
  {
    OnePassLeavesScript(SPLIT_TAIL);
  }

  /** The query or the parameters with the corrected sanitiser. */
  function SanitizeMapCorrected(m: map<string, string>): (r: map<string, string>)
    ensures r.Keys == m.Keys
  {
    MapValues(SanitizeString, m)
  }

  /** With the corrected sanitiser the same keys remain and no value holds a
      script block. */
  lemma SanitizeMapCorrectedClean(m: map<string, string>)
    ensures SanitizeMapCorrected(m).Keys == m.Keys
    ensures forall k :: k in m ==> NoMatch(ScriptAt, SanitizeMapCorrected(m)[k])
  {
    forall k | k in m ensures NoMatch(ScriptAt, SanitizeMapCorrected(m)[k]) {
      SanitizeStringClean(m[k]);
    }
  }

  /** Sanitising the query or the parameters again with the corrected
      sanitiser changes nothing. */
  lemma SanitizeMapCorrectedIdempotent(m: map<string, string>)
    ensures SanitizeMapCorrected(SanitizeMapCorrected(m)) == SanitizeMapCorrected(m)
  {
    forall s ensures SanitizeString(SanitizeString(s)) == SanitizeString(s) {
      SanitizeStringIdempotent(s);
    }
    MapValuesIdempotent(SanitizeString, m);
  }

  /** `sanitizeStrings`: the body (when truthy), every query value and every
      route parameter go through the sanitiser as written; then the request
      goes on. */
  method SanitizeStrings(ex: HttpExchange)
    modifies ex
    ensures ex.body == if Truthy(Some(old(ex.body))) then Sanitize(old(ex.body)) else old(ex.body)
    ensures ex.query == SanitizeMap(old(ex.query)) && ex.params == SanitizeMap(old(ex.params))
    ensures ex.nextCalls == old(ex.nextCalls) + 1 && ex.response == old(ex.response)
  {
    var body := ex.body;
    if Truthy(Some(body)) {
      body := Sanitize(body);
    }
    var query := SanitizeMap(ex.query);
    var params := SanitizeMap(ex.params);
    ex.body, ex.query, ex.params := body, query, params;
    ex.nextCalls := ex.nextCalls + 1;
  }
}
