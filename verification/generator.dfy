/** The reply-cleanup and validation rules of `MemeCoinGenerator`: what is done
    to the language model's reply text once it has arrived, and which parsed
    objects are accepted as a coin identity or as tokenomics. The completion
    service is the parameter `complete` and `JSON.parse` is the parameter
    `parse`. */
module Generator {
  import opened Wrappers
  import opened JsText
  import opened JsNumber

  /** A JSON member value as the checks see it: a number or a string. */
  datatype JsonValue = JInt(i: int) | JStr(s: string)

  /** A parsed JSON object: its keys and their values. */
  type JsonObject = map<string, JsonValue>

  /** The outcome of `JSON.parse` on the cleaned reply. */
  datatype ParseResult = Parsed(obj: JsonObject) | SyntaxError(message: string)

  type JsonParser = string -> ParseResult

  /** The two prompts sent to the completion service. The naming prompt embeds
      the theme clause; the tokenomics prompt is fixed text. */
  datatype Request = CoinNameRequest(themeContext: string) | TokenomicsRequest

  /** The completion service: the reply text for a prompt. */
  type Completion = Request -> string

  const JsonFence: string := "```json"
  const Fence: string := "```"

  /** The theme clause of the naming prompt: empty when no theme, or an empty
      one, is given. */
  function ThemeContext(theme: Option<string>): (r: string)
    ensures r == "" <==> theme.None? || theme.value == ""
    ensures theme.Some? && theme.value != "" ==> |r| > |theme.value| && r[|r| - |theme.value|..] == theme.value
  {
    if theme.Some? && theme.value != "" then " based on the theme: " + theme.value else ""
  }

  // ---------------------------------------------------------------------------
  // Cleaning the naming reply

  /** `s.split(pat)[0]`: the text before the first occurrence of `pat`. */
  function Before(s: string, pat: string): (r: string)
    ensures r <= s
    ensures forall j | 0 <= j < |r| :: !OccursAt(s, pat, j)
    ensures r == s || OccursAt(s, pat, |r|)
  {
    match Find(s, pat)
    case None => s
    case Some(i) => s[..i]
  }

  /** `s.split(pat)[1]` when `pat` occurs in `s`: the text between the first and
      the second occurrence (or the end). */
  function SecondPiece(s: string, pat: string): (r: string)
    requires |pat| > 0
    ensures !Contains(s, pat) ==> r == ""
    ensures Contains(s, pat) ==> r == Before(s[Find(s, pat).value + |pat|..], pat)
  {
    match Find(s, pat)
    case None => ""
    case Some(i) => Before(s[i + |pat|..], pat)
  }

  /** The naming reply is trimmed; if it contains a ```` ```json ```` fence, only
      the trimmed text between that fence and the next ```` ``` ```` is kept. */
  function StripJsonFence(reply: string): string {
    var content := Trim(reply);
    if Contains(content, JsonFence) then Trim(Before(SecondPiece(content, JsonFence), Fence))
    else content
  }

  lemma {:induction false} BeforeLacksPattern(s: string, pat: string)
    requires |pat| > 0
    ensures !Contains(Before(s, pat), pat)
  {
    var b := Before(s, pat);
    forall j | 0 <= j <= |b| ensures !OccursAt(b, pat, j) {
      if OccursAt(b, pat, j) {
        OccursInSlice(s, pat, 0, |b|, j);
      }
    }
  }

  lemma OccursInSlice(s: string, pat: string, i: int, j: int, k: int)
    requires 0 <= i <= j <= |s| && OccursAt(s[i..j], pat, k)
    ensures OccursAt(s, pat, i + k)
  {
    var inner, outer := s[i..j][k..k + |pat|], s[i + k..i + k + |pat|];
    forall m | 0 <= m < |pat| ensures inner[m] == outer[m] { }
    assert inner == outer;
  }

  lemma {:induction false} SliceLacksPattern(s: string, pat: string, i: int, j: int)
    requires 0 <= i <= j <= |s| && !Contains(s, pat)
    ensures !Contains(s[i..j], pat)
  {
    forall k | 0 <= k <= j - i ensures !OccursAt(s[i..j], pat, k) {
      if OccursAt(s[i..j], pat, k) {
        OccursInSlice(s, pat, i, j, k);
      }
    }
  }

  lemma {:induction false} TrimLacksPattern(s: string, pat: string)
    requires !Contains(s, pat)
    ensures !Contains(Trim(s), pat)
  {
    var i, j :| 0 <= i <= j <= |s| && Trim(s) == s[i..j] && AllWhitespace(s[..i]) && AllWhitespace(s[j..]);
    SliceLacksPattern(s, pat, i, j);
  }

  lemma {:induction false} NoFenceNoJsonFence(s: string)
    requires !Contains(s, Fence)
    ensures !Contains(s, JsonFence)
  {
    forall k | 0 <= k <= |s| ensures !OccursAt(s, JsonFence, k) {
      if OccursAt(s, JsonFence, k) {
        assert s[k..k + 3] == s[k..k + 7][..3];
        assert OccursAt(s, Fence, k);
      }
    }
  }

  /** What the naming cleanup promises: the kept text is trimmed, it is the
      trimmed reply when there is no ```` ```json ```` fence, and when there is
      one it is the trimmed text that follows the first ```` ```json ````, cut
      before the next ```` ```json ```` and then before the first
      ```` ``` ````, so it holds no ```` ``` ```` at all. */
  lemma StripJsonFenceSpec(reply: string)
    ensures var r := StripJsonFence(reply);
      && Trim(r) == r
      && (!Contains(Trim(reply), JsonFence) ==> r == Trim(reply))
      && (Contains(Trim(reply), JsonFence) ==> !Contains(r, Fence))
    ensures var content := Trim(reply);
      Contains(content, JsonFence) ==>
        var i := Find(content, JsonFence).value;
        StripJsonFence(reply) == Trim(Before(Before(content[i + |JsonFence|..], JsonFence), Fence))
  {
    var content := Trim(reply);
    var r := StripJsonFence(reply);
    if Contains(content, JsonFence) {
      var b := Before(SecondPiece(content, JsonFence), Fence);
      BeforeLacksPattern(SecondPiece(content, JsonFence), Fence);
      TrimLacksPattern(b, Fence);
      TrimIdempotent(b);
    } else {
      TrimIdempotent(reply);
    }
  }

  /** Cleaning an already cleaned naming reply changes nothing. */
  lemma {:induction false} StripJsonFenceIdempotent(reply: string)
    ensures StripJsonFence(StripJsonFence(reply)) == StripJsonFence(reply)
  {
    var r := StripJsonFence(reply);
    StripJsonFenceSpec(reply);
    if Contains(Trim(reply), JsonFence) {
      NoFenceNoJsonFence(r);
    }
    assert !Contains(r, JsonFence);
  }

  // ---------------------------------------------------------------------------
  // Validating the coin identity

  /** JavaScript truthiness of a present value: `0` and `""` are falsy. */
  predicate Truthy(v: JsonValue) {
    match v
    case JInt(i) => i != 0
    case JStr(s) => s != ""
  }

  /** `!!result[key]`: an absent key reads as `undefined`, which is falsy. */
  predicate HasTruthy(obj: JsonObject, key: string) {
    key in obj && Truthy(obj[key])
  }

  predicate IsAsciiAlnum(c: char) {
    ('a' <= c <= 'z') || ('A' <= c <= 'Z') || ('0' <= c <= '9')
  }

  /** `/^[a-zA-Z0-9]+$/`. */
  predicate AlnumWord(s: string) {
    |s| > 0 && forall i | 0 <= i < |s| :: IsAsciiAlnum(s[i])
  }

  /** `/^[A-Z]{3,4}$/`. */
  predicate SymbolFormat(s: string) {
    (|s| == 3 || |s| == 4) && forall i | 0 <= i < |s| :: 'A' <= s[i] <= 'Z'
  }

  /** The name test as the source writes it: the first `Token` is deleted and
      what is left must be a non-empty ASCII alphanumeric word. */
  predicate NameFormat(name: string) {
    AlnumWord(ReplaceFirst(name, "Token", ""))
  }

  /** The validation of a parsed naming reply (the error messages are those
      thrown; calling `replace` or `match` on a number is a `TypeError`). On
      success the parsed object itself is returned, extra keys included. */
  function CheckCoinIdentity(obj: JsonObject): (r: Result<JsonObject>)
    ensures r.Ok? ==> r.value == obj
  {
    if !(HasTruthy(obj, "name") && HasTruthy(obj, "symbol") && HasTruthy(obj, "description")) then
      Err("Missing required fields in response")
    else if !obj["name"].JStr? then Err("result.name.replace is not a function")
    else if !NameFormat(obj["name"].s) then Err("Invalid coin name format")
    else if !obj["symbol"].JStr? then Err("result.symbol.match is not a function")
    else if !SymbolFormat(obj["symbol"].s) then Err("Invalid symbol format")
    else Ok(obj)
  }

  lemma NameFormatSound(name: string)
    requires NameFormat(name)
    ensures AlnumWord(name) && name != "Token"
  {
    TokenAlnum("Token");
    CutWordSound(name, "Token");
  }

  /** A word that is still alphanumeric once its first occurrence of the
      alphanumeric word `pat` is deleted was alphanumeric, and was not `pat`
      alone. */
  lemma CutWordSound(name: string, pat: string)
    requires AlnumWord(pat) && AlnumWord(ReplaceFirst(name, pat, ""))
    ensures AlnumWord(name) && name != pat
  {
    match Find(name, pat)
    case None =>
      assert OccursAt(pat, pat, 0);
    case Some(i) =>
      assert ReplaceFirst(name, pat, "") == name[..i] + name[i + |pat|..];
      CutWordAt(name, pat, i);
  }

  lemma CutWordAt(name: string, pat: string, i: nat)
    requires OccursAt(name, pat, i) && AlnumWord(pat)
    requires AlnumWord(name[..i] + name[i + |pat|..])
    ensures AlnumWord(name) && name != pat
  {
    AlnumAroundCut(name, i, i + |pat|);
  }

  lemma TokenAlnum(token: string)
    requires token == "Token"
    ensures AlnumWord(token)
  {
  }

  /** A word whose middle `s[i..j]` and whose rest `s[..i] + s[j..]` are
      alphanumeric is alphanumeric. */
  lemma AlnumAroundCut(s: string, i: nat, j: nat)
    requires i <= j <= |s|
    requires forall k | 0 <= k < j - i :: IsAsciiAlnum(s[i..j][k])
    requires AlnumWord(s[..i] + s[j..])
    ensures forall k | 0 <= k < |s| :: IsAsciiAlnum(s[k])
  {
    var r := s[..i] + s[j..];
    forall k | 0 <= k < |s| ensures IsAsciiAlnum(s[k]) {
      if k < i {
        assert s[k] == r[k];
      } else if k < j {
        assert s[k] == s[i..j][k - i];
      } else {
        assert s[k] == r[k - (j - i)];
      }
    }
  }

  lemma {:induction false} NameFormatComplete(name: string)
    requires AlnumWord(name) && name != "Token"
    ensures NameFormat(name)
  {
    var t := "Token";
    match Find(name, t)
    case None =>
    case Some(i) =>
      var r := name[..i] + name[i + 5..];
      assert ReplaceFirst(name, t, "") == r;
      forall k | 0 <= k < |r| ensures IsAsciiAlnum(r[k]) {
        if k < i {
          assert r[k] == name[k];
        } else {
          assert r[k] == name[k + 5];
        }
      }
  }

  /** The name test without the deletion: deleting the first `Token` and
      requiring an alphanumeric word accepts exactly the alphanumeric words
      other than `Token` itself. */
  lemma NameFormatIff(name: string)
    ensures NameFormat(name) <==> AlnumWord(name) && name != "Token"
  {
    if NameFormat(name) {
      NameFormatSound(name);
    }
    if AlnumWord(name) && name != "Token" {
      NameFormatComplete(name);
    }
  }

  /** A coin identity as the design describes it: name, symbol and description
      present and non-empty; the name an alphanumeric word other than `Token`;
      the symbol three or four capital letters. */
  predicate ValidIdentity(obj: JsonObject) {
    && HasTruthy(obj, "name") && HasTruthy(obj, "symbol") && HasTruthy(obj, "description")
    && obj["name"].JStr? && AlnumWord(obj["name"].s) && obj["name"].s != "Token"
    && obj["symbol"].JStr? && SymbolFormat(obj["symbol"].s)
  }

  /** The checks accept exactly the valid identities, and a missing or empty
      field is reported before any format check. */
  lemma CheckCoinIdentityIff(obj: JsonObject)
    ensures CheckCoinIdentity(obj).Ok? <==> ValidIdentity(obj)
    ensures !(HasTruthy(obj, "name") && HasTruthy(obj, "symbol") && HasTruthy(obj, "description")) ==>
      CheckCoinIdentity(obj) == Err("Missing required fields in response")
  {
    if "name" in obj && obj["name"].JStr? {
      NameFormatIff(obj["name"].s);
    }
  }

  const CoinNamePrefix: string := "Error generating coin name: "

  /** `generateCoinName(theme)`: ask for a name, clean the reply, parse it and
      validate it; every failure is re-thrown with the step's prefix. */
  function GenerateCoinName(theme: Option<string>, complete: Completion, parse: JsonParser): (r: Result<JsonObject>)
    ensures r.Ok? ==> ValidIdentity(r.value)
    ensures r.Err? ==> CoinNamePrefix <= r.message
    ensures var parsed := parse(StripJsonFence(complete(CoinNameRequest(ThemeContext(theme)))));
      && (r.Ok? <==> parsed.Parsed? && ValidIdentity(parsed.obj))
      && (r.Ok? ==> r.value == parsed.obj)
      && (parsed.SyntaxError? ==> r == Err(CoinNamePrefix + parsed.message))
      && (parsed.Parsed? && CheckCoinIdentity(parsed.obj).Err? ==>
            r == Err(CoinNamePrefix + CheckCoinIdentity(parsed.obj).message))
  {
    var content := StripJsonFence(complete(CoinNameRequest(ThemeContext(theme))));
    match parse(content)
    case SyntaxError(m) => Err(CoinNamePrefix + m)
    case Parsed(obj) =>
      CheckCoinIdentityIff(obj);
      Wrap(CoinNamePrefix, CheckCoinIdentity(obj))
  }

  /** A valid name or symbol holds no character that `replace` treats
      specially in a replacement string, and no `{`. */
  lemma ValidIdentityPlain(obj: JsonObject)
    requires ValidIdentity(obj)
    ensures '$' !in obj["name"].s && '{' !in obj["name"].s
    ensures '$' !in obj["symbol"].s && '{' !in obj["symbol"].s
  {
  }

  // ---------------------------------------------------------------------------
  // Cleaning the tokenomics reply

  /** The regular expression `^<fence>\s*` replaced by nothing: a leading
      fence and the whitespace after it are removed. */
  function StripLeadingFence(s: string, fence: string): (r: string)
    ensures !(fence <= s) ==> r == s
    ensures fence <= s ==> |fence| + |r| <= |s| && r == s[|s| - |r|..]
  {
    if fence <= s then
      var t := s[|fence|..];
      assert t[LeadingWhitespace(t)..] == s[|fence| + LeadingWhitespace(t)..];
      TrimStart(t)
    else s
  }

  /** What is cut along with a leading fence is a run of whitespace, and the
      kept text does not start with whitespace. */
  lemma StripLeadingFenceSpec(s: string, fence: string)
    requires fence <= s
    ensures var r := StripLeadingFence(s, fence);
      AllWhitespace(s[|fence|..|s| - |r|]) && (r == [] || !IsWhitespace(r[0]))
  {
    var t := s[|fence|..];
    var k := LeadingWhitespace(t);
    assert t[..k] == s[|fence|..|fence| + k];
  }

  /** `s` ends with `suffix`. */
  predicate EndsWith(s: string, suffix: string) {
    |suffix| <= |s| && s[|s| - |suffix|..] == suffix
  }

  /** `s.replace(/```$/, '')`: a fence that ends the text is removed. */
  function StripTrailingFence(s: string): (r: string)
    ensures EndsWith(s, Fence) ==> r + Fence == s
    ensures !EndsWith(s, Fence) ==> r == s
  {
    if |s| >= 3 && s[|s| - 3..] == Fence then
      assert s[..|s| - 3] + s[|s| - 3..] == s;
      s[..|s| - 3]
    else s
  }

  /** The last index holding `c`. */
  function FindLast(s: string, c: char): (r: Option<nat>)
    ensures r.Some? ==> r.value < |s| && s[r.value] == c
    ensures forall j | 0 <= j < |s| && (r.None? || j > r.value) :: s[j] != c
    decreases |s|
  {
    if |s| == 0 then None
    else if s[|s| - 1] == c then Some(|s| - 1)
    else FindLast(s[..|s| - 1], c)
  }

  /** The first index holding `c`. */
  function FindFirst(s: string, c: char): (r: Option<nat>)
    ensures r.Some? ==> r.value < |s| && s[r.value] == c
    ensures forall j | 0 <= j < |s| && (r.None? || j < r.value) :: s[j] != c
    decreases |s|
  {
    if |s| == 0 then None
    else if s[0] == c then Some(0)
    else match FindFirst(s[1..], c)
      case None => None
      case Some(i) => Some(i + 1)
  }

  /** `s.replace(/^[\s\S]*?(\{[\s\S]*\})[\s\S]*$/, '$1')`: the lazy prefix stops
      at the first `{`, the greedy middle runs to the last `}`; without a `}`
      after the first `{` the pattern does not match and the text is kept. */
  function ExtractBraces(s: string): string {
    match (FindFirst(s, '{'), FindLast(s, '}'))
    case (Some(i), Some(j)) => if i < j then s[i..j + 1] else s
    case _ => s
  }

  /** `s[i]` is a `{` and `s[j]` a later `}`. */
  predicate BracePair(s: string, i: int, j: int) {
    0 <= i < j < |s| && s[i] == '{' && s[j] == '}'
  }

  /** `s[i]` is the first `{` and `s[j]` the last `}` of `s`. */
  predicate OutermostPair(s: string, i: int, j: int) {
    && BracePair(s, i, j)
    && (forall k | 0 <= k < i :: s[k] != '{')
    && (forall k | j < k < |s| :: s[k] != '}')
  }

  /** What the brace extraction promises: when some `{` has a `}` after it,
      the result runs from the first `{` to the last `}` inclusive; otherwise
      the text is unchanged. */
  lemma ExtractBracesSpec(s: string)
    ensures (exists i, j :: BracePair(s, i, j)) ==>
      exists i, j :: OutermostPair(s, i, j) && ExtractBraces(s) == s[i..j + 1]
    ensures !(exists i, j :: BracePair(s, i, j)) ==> ExtractBraces(s) == s
  {
    var f, l := FindFirst(s, '{'), FindLast(s, '}');
    if exists i, j :: BracePair(s, i, j) {
      var i, j :| BracePair(s, i, j);
      assert f.Some? && l.Some? && f.value <= i < j <= l.value;
      assert OutermostPair(s, f.value, l.value);
    } else if f.Some? && l.Some? && f.value < l.value {
      assert BracePair(s, f.value, l.value);
    }
  }

  /** Extracting the braces of an already extracted text changes nothing. */
  lemma {:induction false} ExtractBracesIdempotent(s: string)
    ensures ExtractBraces(ExtractBraces(s)) == ExtractBraces(s)
  {
    match (FindFirst(s, '{'), FindLast(s, '}'))
    case (Some(i), Some(j)) =>
      if i < j {
        var r := s[i..j + 1];
        var f, l := FindFirst(r, '{'), FindLast(r, '}');
        assert r[0] == '{' && r[|r| - 1] == '}';
        assert f == Some(0) && l == Some(|r| - 1);
      }
    case _ =>
  }

  /** The whole tokenomics cleanup (lines 111-119 of the generator): trim, drop
      a leading ```` ```json ````, a trailing fence, a leading ```` ``` ```` and
      a trailing fence again, then keep the outermost braces. */
  function CleanTokenomicsReply(reply: string): string {
    ExtractBraces(StripFences(StripFences(Trim(reply), JsonFence), Fence))
  }

  /** One cleanup round: a leading `fence` (and the whitespace after it), then
      a trailing ```` ``` ````, removed. */
  function StripFences(s: string, fence: string): string {
    StripTrailingFence(StripLeadingFence(s, fence))
  }

  /** `s` holds no brace. */
  predicate NoBrace(s: string) {
    '{' !in s && '}' !in s
  }

  /** `u` is `s[a..b]`, and what is cut off on either side holds no brace. */
  predicate BraceFreeCut(s: string, u: string, a: int, b: int) {
    0 <= a <= b <= |s| && u == s[a..b] && NoBrace(s[..a]) && NoBrace(s[b..])
  }

  /** Cutting brace-free ends twice is cutting brace-free ends once. */
  lemma CutCompose(s: string, t: string, u: string, a: int, b: int, c: int, d: int) returns (a': int, b': int)
    requires BraceFreeCut(s, t, a, b) && BraceFreeCut(t, u, c, d)
    ensures BraceFreeCut(s, u, a', b')
  {
    assert s[..a + c] == s[..a] + t[..c];
    assert s[a + d..] == t[d..] + s[b..];
    SliceOfSlice(s, a, b, c, d);
    a', b' := a + c, a + d;
  }

  lemma SliceOfSlice(s: string, a: int, b: int, c: int, d: int)
    requires 0 <= a <= b <= |s| && 0 <= c <= d <= b - a
    ensures s[a..b][c..d] == s[a + c..a + d]
  {
    assert forall k | 0 <= k < d - c :: s[a..b][c..d][k] == s[a + c + k];
  }

  /** Removing a leading fence and the whitespace after it cuts a brace-free
      head off the text. */
  lemma LeadingFenceCut(s: string, fence: string) returns (a: nat)
    requires NoBrace(fence)
    ensures a <= |s| && StripLeadingFence(s, fence) == s[a..] && NoBrace(s[..a])
  {
    var r := StripLeadingFence(s, fence);
    a := |s| - |r|;
    if fence <= s {
      assert s[..a] == fence + s[|fence|..a];
    }
  }

  /** Removing a trailing fence cuts a brace-free tail off the text. */
  lemma TrailingFenceCut(s: string) returns (b: nat)
    ensures b <= |s| && StripTrailingFence(s) == s[..b] && NoBrace(s[b..])
  {
    b := |StripTrailingFence(s)|;
    assert s[..b] == StripTrailingFence(s);
  }

  lemma OutermostOf(s: string) returns (i: int, j: int)
    requires exists i, j :: BracePair(s, i, j)
    ensures Braces(s, i, j)
  {
    var i0, j0 :| BracePair(s, i0, j0);
    var f, l := FindFirst(s, '{'), FindLast(s, '}');
    assert f.Some? && l.Some? && f.value <= i0 < j0 <= l.value;
    i, j := f.value, l.value;
  }

  /** The first `{` of `s` is at `i`, its last `}` at `j`, and `i < j`: the
      span `ExtractBraces` keeps is `s[i..j + 1]`. */
  predicate Braces(s: string, i: int, j: int) {
    FindFirst(s, '{') == Some(i) && FindLast(s, '}') == Some(j) && i < j
  }

  lemma ExtractOfBraces(s: string, i: int, j: int)
    requires Braces(s, i, j)
    ensures ExtractBraces(s) == s[i..j + 1]
  {
  }

  /** A brace-free cut keeps the first `{` and the last `}` and what lies
      between them. */
  lemma BracesOfCut(s: string, t: string, a: int, b: int, i: int, j: int)
    requires BraceFreeCut(s, t, a, b) && Braces(s, i, j)
    ensures Braces(t, i - a, j - a) && ExtractBraces(t) == ExtractBraces(s)
  {
    BracesShift(s, t, a, b, i, j);
    SpanOfCut(s, t, a, b, i, j);
    ExtractOfCut(s, t, i, j, a);
  }

  lemma SpanOfCut(s: string, t: string, a: int, b: int, i: int, j: int)
    requires 0 <= a <= i <= j < b <= |s| && t == s[a..b]
    ensures t[i - a..j - a + 1] == s[i..j + 1]
  {
    SliceOfSlice(s, a, b, i - a, j - a + 1);
  }

  lemma ExtractOfCut(s: string, t: string, i: int, j: int, a: int)
    requires Braces(s, i, j) && Braces(t, i - a, j - a)
    requires t[i - a..j - a + 1] == s[i..j + 1]
    ensures ExtractBraces(t) == ExtractBraces(s)
  {
    ExtractOfBraces(s, i, j);
    ExtractOfBraces(t, i - a, j - a);
  }

  lemma BracesShift(s: string, t: string, a: int, b: int, i: int, j: int)
    requires 0 <= a <= b <= |s| && t == s[a..b] && NoBrace(s[..a]) && NoBrace(s[b..])
    requires Braces(s, i, j)
    ensures a <= i && j < b && Braces(t, i - a, j - a)
  {
    BracesInside(s, a, b, i, j);
    FirstBraceOfCut(s, t, a, b, i);
    LastBraceOfCut(s, t, a, b, j);
  }

  /** The braces of `s` all lie between a brace-free head and tail. */
  lemma BracesInside(s: string, a: int, b: int, i: int, j: int)
    requires 0 <= a <= b <= |s| && NoBrace(s[..a]) && NoBrace(s[b..])
    requires BracePair(s, i, j)
    ensures a <= i && j < b
  {
  }

  lemma FirstBraceOfCut(s: string, t: string, a: int, b: int, i: int)
    requires 0 <= a <= i < b <= |s| && t == s[a..b]
    requires FindFirst(s, '{') == Some(i)
    ensures FindFirst(t, '{') == Some(i - a)
  {
    var f := FindFirst(t, '{');
    assert t[i - a] == s[i];
    assert f.Some? && f.value <= i - a;
    var k := f.value;
    assert t[k] == s[a + k];
    assert !(a + k < i);
  }

  lemma LastBraceOfCut(s: string, t: string, a: int, b: int, j: int)
    requires 0 <= a <= j < b <= |s| && t == s[a..b]
    requires FindLast(s, '}') == Some(j)
    ensures FindLast(t, '}') == Some(j - a)
  {
    var l := FindLast(t, '}');
    assert t[j - a] == s[j];
    assert l.Some? && j - a <= l.value;
    var k := l.value;
    assert t[k] == s[a + k];
    assert !(a + k > j);
  }

  /** A leading fence with its whitespace and a trailing fence removed: a
      brace-free head and tail cut off. */
  lemma FencesCut(s: string, fence: string) returns (a: int, b: int)
    requires NoBrace(fence)
    ensures BraceFreeCut(s, StripFences(s, fence), a, b)
  {
    var a1 := LeadingFenceCut(s, fence);
    var t := StripLeadingFence(s, fence);
    assert s[a1..|s|] == t && s[|s|..] == [];
    var d := TrailingFenceCut(t);
    assert t[..0] == [] && t[0..d] == t[..d];
    a, b := CutCompose(s, t, StripFences(s, fence), a1, |s|, 0, d);
  }

  /** The two cleanup rounds together cut a brace-free head and tail off
      the text. */
  lemma TwoRoundsCut(s: string, f1: string, f2: string) returns (a: int, b: int)
    requires NoBrace(f1) && NoBrace(f2)
    ensures BraceFreeCut(s, StripFences(StripFences(s, f1), f2), a, b)
  {
    var a1, b1 := FencesCut(s, f1);
    var c, d := FencesCut(StripFences(s, f1), f2);
    a, b := CutCompose(s, StripFences(s, f1), StripFences(StripFences(s, f1), f2), a1, b1, c, d);
  }

  /** When the trimmed tokenomics reply holds a `{` with a `}` after it, the
      fence removals take nothing that matters: the cleaned reply is the text
      from its first `{` to its last `}`. */
  lemma CleanTokenomicsReplyBraces(reply: string)
    requires exists i, j :: BracePair(Trim(reply), i, j)
    ensures CleanTokenomicsReply(reply) == ExtractBraces(Trim(reply))
  {
    var i, j := OutermostOf(Trim(reply));
    FencesBraceFree();
    TwoRoundsKeepBraces(Trim(reply), JsonFence, Fence, i, j);
  }

  lemma FencesBraceFree()
    ensures NoBrace(JsonFence) && NoBrace(Fence)
  {
  }

  /** Two cleanup rounds with brace-free fences keep what the extraction
      returns. */
  lemma TwoRoundsKeepBraces(s: string, f1: string, f2: string, i: int, j: int)
    requires NoBrace(f1) && NoBrace(f2) && Braces(s, i, j)
    ensures ExtractBraces(StripFences(StripFences(s, f1), f2)) == ExtractBraces(s)
  {
    var a, b := TwoRoundsCut(s, f1, f2);
    BracesOfCut(s, StripFences(StripFences(s, f1), f2), a, b, i, j);
  }

  // ---------------------------------------------------------------------------
  // Validating the tokenomics

  /** The four integers read from the tokenomics reply. */
  datatype Tokenomics = Tokenomics(
    totalSupply: Number,
    initialLiquidityPercent: Number,
    transactionLimitPercent: Number,
    maxWalletPercent: Number)

  /** `requiredFields.every(field => field in result)`. */
  predicate HasTokenomicsKeys(obj: JsonObject) {
    && "total_supply" in obj && "initial_liquidity_percent" in obj
    && "transaction_limit_percent" in obj && "max_wallet_percent" in obj
  }

  const MinTotalSupply: int := 100000000
  const MaxTotalSupply: int := 1000000000
  const MinLiquidityPercent: int := 50
  const MaxLiquidityPercent: int := 90

  /** `String(v)`. */
  function JsString(v: JsonValue): string {
    match v
    case JInt(i) => DecimalString(i)
    case JStr(s) => s
  }

  /** The integer reading of lines 139-144: commas are removed from the supply
      only. */
  function ReadNumbers(obj: JsonObject): Tokenomics
    requires HasTokenomicsKeys(obj)
  {
    Tokenomics(
      ParseInt(WithoutCommas(JsString(obj["total_supply"]))),
      ParseInt(JsString(obj["initial_liquidity_percent"])),
      ParseInt(JsString(obj["transaction_limit_percent"])),
      ParseInt(JsString(obj["max_wallet_percent"])))
  }

  /** The range tests of lines 146-152. They are `<` and `>`, so an unreadable
      value (NaN) passes them; the two other percents are not checked. */
  function CheckRanges(t: Tokenomics): (r: Result<Tokenomics>)
    ensures r.Ok? ==> r.value == t
  {
    if LessThan(t.totalSupply, MinTotalSupply) || GreaterThan(t.totalSupply, MaxTotalSupply) then
      Err("Total supply out of valid range")
    else if LessThan(t.initialLiquidityPercent, MinLiquidityPercent)
         || GreaterThan(t.initialLiquidityPercent, MaxLiquidityPercent) then
      Err("Initial liquidity percentage out of valid range")
    else Ok(t)
  }

  /** The validation of a parsed tokenomics reply, lines 127-154. */
  function CheckTokenomics(obj: JsonObject): (r: Result<Tokenomics>)
    ensures r.Ok? <==> HasTokenomicsKeys(obj) && CheckRanges(ReadNumbers(obj)).Ok?
    ensures r.Ok? ==> HasTokenomicsKeys(obj) && r.value == ReadNumbers(obj)
    ensures r.Ok? ==> CheckRanges(r.value).Ok?
  {
    if !HasTokenomicsKeys(obj) then Err("Missing required fields in tokenomics")
    else CheckRanges(ReadNumbers(obj))
  }

  /** The ranges accepted, read as numbers: both bounds are inclusive, a
      number outside them is rejected, and NaN is let through. */
  lemma CheckRangesIff(t: Tokenomics)
    ensures CheckRanges(t).Ok? <==>
      && (t.totalSupply.Num? ==> MinTotalSupply <= t.totalSupply.n <= MaxTotalSupply)
      && (t.initialLiquidityPercent.Num? ==>
            MinLiquidityPercent <= t.initialLiquidityPercent.n <= MaxLiquidityPercent)
  {
  }

  const TokenomicsPrefix: string := "Error generating tokenomics: "
  const ParseFailurePrefix: string := "Failed to parse JSON response: "

  /** `generateTokenomics(name)`: the name is accepted but the prompt does not
      use it. Every parse or validation failure is re-thrown as
      `Failed to parse JSON response: <message>\nContent: <content>` (a
      backslash and an `n`, as the template literal writes `\\n`), and that
      again with the step's prefix. */
  function GenerateTokenomics(name: string, complete: Completion, parse: JsonParser): (r: Result<Tokenomics>)
    ensures r.Err? ==> TokenomicsPrefix + ParseFailurePrefix <= r.message
    ensures var parsed := parse(CleanTokenomicsReply(complete(TokenomicsRequest)));
      r.Ok? <==> parsed.Parsed? && CheckTokenomics(parsed.obj).Ok?
    ensures var parsed := parse(CleanTokenomicsReply(complete(TokenomicsRequest)));
      r.Ok? ==> r == CheckTokenomics(parsed.obj)
    ensures r.Ok? ==> CheckRanges(r.value).Ok?
  {
    var content := CleanTokenomicsReply(complete(TokenomicsRequest));
    var checked := match parse(content)
      case SyntaxError(m) => Err(m)
      case Parsed(obj) => CheckTokenomics(obj);
    match checked
    case Ok(t) => Ok(t)
    case Err(m) => Err(ParseFailureMessage(m, content))
  }

  function ParseFailureMessage(m: string, content: string): (r: string)
    ensures TokenomicsPrefix + ParseFailurePrefix <= r
  {
    var head := TokenomicsPrefix + ParseFailurePrefix;
    var r := head + (m + "\\nContent: " + content);
    assert r[..|head|] == head;
    r
  }

  /** A record that lacks one of the four keys is rejected as missing fields. */
  lemma MissingTokenomicsKey(obj: JsonObject)
    requires !HasTokenomicsKeys(obj)
    ensures CheckTokenomics(obj) == Err("Missing required fields in tokenomics")
  {
  }

  /** For a record whose four values are JSON integers, the checks accept it
      exactly when the supply lies in [100000000, 1000000000] and the liquidity
      percent in [50, 90], and the result holds those four integers; the two
      remaining percents are never range-checked. */
  lemma IntegerTokenomics(obj: JsonObject, supply: int, liquidity: int, txLimit: int, maxWallet: int)
    requires HasTokenomicsKeys(obj)
    requires obj["total_supply"] == JInt(supply) && obj["initial_liquidity_percent"] == JInt(liquidity)
    requires obj["transaction_limit_percent"] == JInt(txLimit) && obj["max_wallet_percent"] == JInt(maxWallet)
    ensures CheckTokenomics(obj).Ok? <==>
      MinTotalSupply <= supply <= MaxTotalSupply && MinLiquidityPercent <= liquidity <= MaxLiquidityPercent
    ensures CheckTokenomics(obj).Ok? ==>
      CheckTokenomics(obj).value == Tokenomics(Num(supply), Num(liquidity), Num(txLimit), Num(maxWallet))
  {
    ReadIntegerValue(obj, "total_supply", supply);
    ReadIntegerValue(obj, "initial_liquidity_percent", liquidity);
    ReadIntegerValue(obj, "transaction_limit_percent", txLimit);
    ReadIntegerValue(obj, "max_wallet_percent", maxWallet);
    assert ReadNumbers(obj) == Tokenomics(Num(supply), Num(liquidity), Num(txLimit), Num(maxWallet));
    CheckRangesIff(ReadNumbers(obj));
  }

  /** A supply written with thousands separators, such as "500,000,000", is
      read through the comma removal of line 140 and accepted when the
      liquidity percent is in range, whatever the other two percents hold. */
  lemma CommaSupplyAccepted(obj: JsonObject, supply: string, liquidity: int)
    requires HasTokenomicsKeys(obj)
    requires supply == "500,000,000" && obj["total_supply"] == JStr(supply)
    requires obj["initial_liquidity_percent"] == JInt(liquidity)
    requires MinLiquidityPercent <= liquidity <= MaxLiquidityPercent
    ensures CheckTokenomics(obj).Ok?
    ensures CheckTokenomics(obj).value.totalSupply == Num(500000000)
    ensures CheckTokenomics(obj).value.initialLiquidityPercent == Num(liquidity)
  {
    SupplyWithSeparators(supply);
    ReadIntegerValue(obj, "initial_liquidity_percent", liquidity);
  }

  /** An integer value is read back as itself, with or without the comma
      removal. */
  lemma ReadIntegerValue(obj: JsonObject, key: string, n: int)
    requires key in obj && obj[key] == JInt(n)
    ensures ParseInt(JsString(obj[key])) == Num(n)
    ensures ParseInt(WithoutCommas(JsString(obj[key]))) == Num(n)
  {
    WithoutCommasOfDecimal(n);
    ParseIntOfDecimalString(n);
  }

  /** An unreadable supply is not rejected: `parseInt` gives NaN, and NaN is
      neither below the minimum nor above the maximum. */
  lemma UnreadableSupplyPasses(obj: JsonObject, liquidity: int)
    requires HasTokenomicsKeys(obj)
    requires obj["total_supply"] == JStr("unknown") && obj["initial_liquidity_percent"] == JInt(liquidity)
    requires MinLiquidityPercent <= liquidity <= MaxLiquidityPercent
    ensures CheckTokenomics(obj).Ok? && CheckTokenomics(obj).value.totalSupply == NaN
  {
    UnknownReadsAsNaN(JsString(obj["total_supply"]));
    ReadIntegerValue(obj, "initial_liquidity_percent", liquidity);
    assert ReadNumbers(obj).totalSupply == NaN;
    CheckRangesIff(ReadNumbers(obj));
  }

  lemma UnknownReadsAsNaN(w: string)
    requires w == "unknown"
    ensures ParseInt(WithoutCommas(w)) == NaN
  {
    assert ',' !in w;
    WithoutAbsent(w, ',');
    ParseIntOfNonDigit(w);
  }

  // ---------------------------------------------------------------------------
  // The generator as the agent sees it

  /** The two generation steps, as the agent calls them: `generateCoinName`
      on a theme and `generateTokenomics` on a name. */
  datatype Steps = Steps(coinName: Option<string> -> Result<JsonObject>, tokenomics: string -> Result<Tokenomics>)

  /** What the agent relies on: a named coin is a valid identity, accepted
      tokenomics pass the range checks, and each step's failure carries that
      step's prefix. */
  ghost predicate SoundSteps(steps: Steps) {
    && (forall theme :: steps.coinName(theme).Ok? ==> ValidIdentity(steps.coinName(theme).value))
    && (forall theme :: steps.coinName(theme).Err? ==> CoinNamePrefix <= steps.coinName(theme).message)
    && (forall name :: steps.tokenomics(name).Ok? ==> CheckRanges(steps.tokenomics(name).value).Ok?)
    && (forall name :: steps.tokenomics(name).Err? ==> TokenomicsPrefix + ParseFailurePrefix <= steps.tokenomics(name).message)
  }

  /** The steps of a `MemeCoinGenerator` talking to `complete` and parsing
      with `parse`. */
  function GeneratorSteps(complete: Completion, parse: JsonParser): Steps {
    Steps(theme => GenerateCoinName(theme, complete, parse), name => GenerateTokenomics(name, complete, parse))
  }

  /** The generator's steps are sound: every identity they produce is valid,
      the tokenomics they accept are within range, and every failure carries
      its step's prefix. */
  lemma GeneratorStepsSound(complete: Completion, parse: JsonParser)
    ensures SoundSteps(GeneratorSteps(complete, parse))
  {
    var steps := GeneratorSteps(complete, parse);
    forall theme
      ensures steps.coinName(theme).Ok? ==> ValidIdentity(steps.coinName(theme).value)
      ensures steps.coinName(theme).Err? ==> CoinNamePrefix <= steps.coinName(theme).message
    {
      assert steps.coinName(theme) == GenerateCoinName(theme, complete, parse);
    }
    forall name
      ensures steps.tokenomics(name).Ok? ==> CheckRanges(steps.tokenomics(name).value).Ok?
      ensures steps.tokenomics(name).Err? ==> TokenomicsPrefix + ParseFailurePrefix <= steps.tokenomics(name).message
    {
      assert steps.tokenomics(name) == GenerateTokenomics(name, complete, parse);
    }
  }
}
