/**
 * The guardrails gate (`GuardrailsSecurity` in guardrails_security.py): a configurable
 * validator that accepts or rejects the user's question before it enters the pipeline and the
 * model's answer before it leaves. Both checks are pure: they return the stripped text or
 * fail, and never repair what they are given. Raised `ValueError`s become `Failure`s.
 */
module Guardrails {
  import opened Wrappers
  import opened PyText

  /** The reasons the gate rejects a text, one per `raise ValueError(...)` of the source. */
  datatype GuardError =
    | EmptyInput
    | InputTooLong
    | UnsafeInput
    | EmptyOutput
    | OutputTooLong
    | SensitiveOutput
  {
    /** The message the source attaches to the error. */
    function Text(): string {
      match this
      case EmptyInput => "Entrada vazia não é permitida."
      case InputTooLong => "Entrada muito longa."
      case UnsafeInput => "Entrada potencialmente insegura."
      case EmptyOutput => "Saída vazia não é permitida."
      case OutputTooLong => "Saída muito longa."
      case SensitiveOutput => "Saída contém possível informação sensível."
    }
  }

  const DefaultMaxInputChars: int := 2000
  const DefaultMaxOutputChars: int := 4000

  /** The phrases `__post_init__` installs when the caller gives none. */
  const DefaultBlockedPhrases: seq<string> := [
    "ignore as instruções",
    "ignore instruções",
    "ignore the instructions",
    "disregard previous instructions",
    "reveal the system prompt",
    "mostre o prompt do sistema",
    "prompt do sistema",
    "system prompt",
    "bypass safety",
    "jailbreak",
    "vaze as chaves",
    "exfiltrate",
    "dump .env",
    "leia o arquivo .env",
    "mostre as chaves",
    "mostre a chave",
    "api key",
    "chave de api",
    "chave de acesso",
    "apikey",
    "token",
    "senha",
    "segredo",
    "secrets"
  ]

  // ---------------------------------------------------------------------------------------
  // The output regexes, as string predicates
  // ---------------------------------------------------------------------------------------

  /** The compiled patterns of `_blocked_regex`. */
  datatype Pattern =
    | GoogleApiKey          // \bAIza[0-9A-Za-z\-_]{35}\b
    | OpenAiKey             // \bsk-[A-Za-z0-9]{20,}\b
    | Marker(word: string)  // (?i)word, a literal matched without regard to ASCII case

  /** The markers matched case-insensitively, in the order of `_blocked_regex`. */
  const SecretMarkers: seq<string> := ["gemini_api_key", "api_key", "senha", "token", "secret", ".env"]

  /** `_blocked_regex` as `__post_init__` builds it. */
  const BlockedRegex: seq<Pattern> := [
    GoogleApiKey, OpenAiKey,
    Marker("gemini_api_key"), Marker("api_key"), Marker("senha"),
    Marker("token"), Marker("secret"), Marker(".env")
  ]

  predicate IsAsciiAlnum(c: char) {
    ('a' <= c <= 'z') || ('A' <= c <= 'Z') || ('0' <= c <= '9')
  }

  /** A character of the regex class `\w`, restricted to ASCII. */
  predicate IsWordChar(c: char) {
    IsAsciiAlnum(c) || c == '_'
  }

  /** A character of the class `[0-9A-Za-z\-_]`. */
  predicate IsKeyChar(c: char) {
    IsAsciiAlnum(c) || c == '-' || c == '_'
  }

  /** `\b` at index `i`: exactly one of the characters around `i` is a word character. */
  predicate WordBoundary(s: string, i: int) {
    0 <= i <= |s| && ((i > 0 && IsWordChar(s[i - 1])) != (i < |s| && IsWordChar(s[i])))
  }

  /** `s[from..to]` consists of ASCII letters and digits. */
  predicate AlnumSpan(s: string, from: int, to: int) {
    0 <= from <= to <= |s| && forall k :: from <= k < to ==> IsAsciiAlnum(s[k])
  }

  /** `s[from..to]` consists of characters of `[0-9A-Za-z\-_]`. */
  predicate KeySpan(s: string, from: int, to: int) {
    0 <= from <= to <= |s| && forall k :: from <= k < to ==> IsKeyChar(s[k])
  }

  /** `[A-Za-z0-9]{20,}\b` matches the `n` characters after the `sk-` that starts at index `i`. */
  predicate OpenAiTail(s: string, i: int, n: int) {
    n >= 20 && AlnumSpan(s, i + 3, i + 3 + n) && WordBoundary(s, i + 3 + n)
  }

  /** The pattern matches a piece of `s` that starts at index `i`. */
  predicate MatchesAt(p: Pattern, s: string, i: nat) {
    match p
    case GoogleApiKey =>
      WordBoundary(s, i) && OccursAt(s, "AIza", i) && KeySpan(s, i + 4, i + 39) && WordBoundary(s, i + 39)
    case OpenAiKey =>
      WordBoundary(s, i) && OccursAt(s, "sk-", i) && exists n | 20 <= n <= |s| :: OpenAiTail(s, i, n)
    case Marker(w) =>
      i + |w| <= |s| && Lower(s[i..i + |w|]) == w
  }

  /** `pattern.search(s)` finds a match. */
  predicate Search(p: Pattern, s: string) {
    exists i | 0 <= i <= |s| :: MatchesAt(p, s, i)
  }

  /** Some phrase of `phrases` occurs in `lowered`. */
  predicate HasPhrase(phrases: seq<string>, lowered: string) {
    exists p :: p in phrases && Contains(lowered, p)
  }

  /** Some pattern of `patterns` is found in `text`. */
  predicate HasMatch(patterns: seq<Pattern>, text: string) {
    exists p :: p in patterns && Search(p, text)
  }

  /** The loop over `self.blocked_phrases`: some phrase occurs in the lowered text. */
  function AnyPhraseIn(phrases: seq<string>, lowered: string): (found: bool)
    ensures found <==> HasPhrase(phrases, lowered)
  {
    if phrases == [] then false
    else Contains(lowered, phrases[0]) || AnyPhraseIn(phrases[1..], lowered)
  }

  /** The loop over `self._blocked_regex`: some pattern is found in the text. */
  function AnyPatternIn(patterns: seq<Pattern>, text: string): (found: bool)
    ensures found <==> HasMatch(patterns, text)
  {
    if patterns == [] then false
    else Search(patterns[0], text) || AnyPatternIn(patterns[1..], text)
  }

  /** A chat message as the gate sees it; its `id` and `response_metadata` only feed logging. */
  datatype ChatMessage = ChatMessage(id: string, content: string)

  /** `content.get("messages", [])`. */
  function MessagesOf(content: map<string, seq<ChatMessage>>): seq<ChatMessage> {
    if "messages" in content then content["messages"] else []
  }

  // ---------------------------------------------------------------------------------------
  // The gate
  // ---------------------------------------------------------------------------------------

  class GuardrailsSecurity {
    var maxInputChars: int
    var maxOutputChars: int
    var blockedPhrases: seq<string>
    var blockedRegex: seq<Pattern>

    /** The dataclass constructor followed by `__post_init__`. */
    constructor (maxInputChars: int, maxOutputChars: int, blockedPhrases: seq<string>)
      ensures this.maxInputChars == maxInputChars && this.maxOutputChars == maxOutputChars
      ensures this.blockedPhrases == if blockedPhrases == [] then DefaultBlockedPhrases else blockedPhrases
      ensures blockedRegex == BlockedRegex
    {
      this.maxInputChars := maxInputChars;
      this.maxOutputChars := maxOutputChars;
      this.blockedPhrases := blockedPhrases;
      new;
      if this.blockedPhrases == [] {
        this.blockedPhrases := DefaultBlockedPhrases;
      }
      blockedRegex := BlockedRegex;
    }

    /** `GuardrailsSecurity()`: every field at its default. */
    constructor Default()
      ensures maxInputChars == DefaultMaxInputChars && maxOutputChars == DefaultMaxOutputChars
      ensures blockedPhrases == DefaultBlockedPhrases && |blockedPhrases| == 24
      ensures blockedRegex == BlockedRegex
    {
      maxInputChars := DefaultMaxInputChars;
      maxOutputChars := DefaultMaxOutputChars;
      blockedPhrases := [];
      new;
      if blockedPhrases == [] {
        blockedPhrases := DefaultBlockedPhrases;
      }
      blockedRegex := BlockedRegex;
    }

    /** `validate_input`: blank check, then length check, then phrase scan. */
    function ValidateInput(text: Option<string>): (r: Result<string, GuardError>)
      reads this
      ensures r.Failure? ==> r.error in {EmptyInput, InputTooLong, UnsafeInput}
      ensures r == Failure(EmptyInput) <==> text.None? || AllSpace(text.value)
      ensures r == Failure(InputTooLong) <==>
        text.Some? && !AllSpace(text.value) && |Strip(text.value)| > maxInputChars
      ensures r == Failure(UnsafeInput) <==>
        && text.Some? && !AllSpace(text.value) && |Strip(text.value)| <= maxInputChars
        && HasPhrase(blockedPhrases, Lower(Strip(text.value)))
      ensures r.Success? ==>
        && text.Some? && r.value == Strip(text.value)
        && r.value != [] && NoEdgeSpace(r.value) && |r.value| <= maxInputChars
        && !HasPhrase(blockedPhrases, Lower(r.value))
    {
      StripEmptyIffAllSpace(text.GetOr([]));
      if text.None? || Strip(text.value) == [] then Failure(EmptyInput)
      else
        var normalized := Strip(text.value);
        if |normalized| > maxInputChars then Failure(InputTooLong)
        else if AnyPhraseIn(blockedPhrases, Lower(normalized)) then Failure(UnsafeInput)
        else Success(normalized)
    }

    /** `validate_output`: only the last message is checked; length check, then pattern scan. */
    function ValidateOutput(content: map<string, seq<ChatMessage>>): (r: Result<string, GuardError>)
      reads this
      ensures r.Failure? ==> r.error in {EmptyOutput, OutputTooLong, SensitiveOutput}
      ensures r == Failure(EmptyOutput) <==> MessagesOf(content) == []
      ensures MessagesOf(content) != [] ==>
        var messages := MessagesOf(content);
        var normalized := Strip(messages[|messages| - 1].content);
        && (r == Failure(OutputTooLong) <==> |normalized| > maxOutputChars)
        && (r == Failure(SensitiveOutput) <==>
              |normalized| <= maxOutputChars && HasMatch(blockedRegex, normalized))
        && (r.Success? ==> r.value == normalized)
    {
      var messages := MessagesOf(content);
      if messages == [] then Failure(EmptyOutput)
      else
        var normalized := Strip(messages[|messages| - 1].content);
        if |normalized| > maxOutputChars then Failure(OutputTooLong)
        else if AnyPatternIn(blockedRegex, normalized) then Failure(SensitiveOutput)
        else Success(normalized)
    }
  }

  // ---------------------------------------------------------------------------------------
  // Properties of validate_input
  // ---------------------------------------------------------------------------------------

  /** Validating an accepted input again accepts it unchanged. */
  lemma ValidateInputIdempotent(g: GuardrailsSecurity, text: Option<string>)
    requires g.ValidateInput(text).Success?
    ensures g.ValidateInput(Some(g.ValidateInput(text).value)) == g.ValidateInput(text)
  {
    var v := g.ValidateInput(text).value;
    StripOfNoEdgeSpace(v);
    StripEmptyIffAllSpace(v);
  }

  /** Whitespace around the question changes neither the verdict nor the accepted text. */
  lemma {:induction false} ValidateInputIgnoresSurroundingSpace(g: GuardrailsSecurity, a: string, m: string, b: string)
    requires AllSpace(a) && AllSpace(b)
    ensures g.ValidateInput(Some(a + m + b)) == g.ValidateInput(Some(m))
  {
    StripIgnoresSurroundingSpace(a, m, b);
    StripEmptyIffAllSpace(a + m + b);
    StripEmptyIffAllSpace(m);
  }

  /** With the default limit, a stripped length of 2001 is too long and one of 2000 is not. */
  lemma DefaultInputLimit(g: GuardrailsSecurity, text: string)
    requires g.maxInputChars == DefaultMaxInputChars
    ensures |Strip(text)| == 2001 ==> g.ValidateInput(Some(text)) == Failure(InputTooLong)
    ensures |Strip(text)| == 2000 ==>
      g.ValidateInput(Some(text)) in {Success(Strip(text)), Failure(UnsafeInput)}
  {
    StripEmptyIffAllSpace(text);
    if |Strip(text)| == 2000 {
      var r := g.ValidateInput(Some(text));
      assert r != Failure(EmptyInput) && r != Failure(InputTooLong);
      assert r.Failure? ==> r.error == UnsafeInput;
      assert r.Success? ==> r.value == Strip(text);
    }
  }

  /**
   * The length check comes before the phrase scan: a question holding a blocked phrase (say
   * "jailbreak") is reported as too long when it is, and as unsafe only otherwise.
   */
  lemma {:induction false} LengthCheckedBeforePhrases(g: GuardrailsSecurity, text: string, phrase: string)
    requires phrase in g.blockedPhrases && phrase != []
    requires Contains(Lower(Strip(text)), phrase)
    ensures |Strip(text)| > g.maxInputChars ==> g.ValidateInput(Some(text)) == Failure(InputTooLong)
    ensures |Strip(text)| <= g.maxInputChars ==> g.ValidateInput(Some(text)) == Failure(UnsafeInput)
  {
    var normalized := Strip(text);
    var r := g.ValidateInput(Some(text));
    assert |Lower(normalized)| >= |phrase| > 0;
    StripEmptyIffAllSpace(text);
    assert !AllSpace(text);
    assert HasPhrase(g.blockedPhrases, Lower(normalized));
    if |normalized| <= g.maxInputChars {
      assert r != Failure(EmptyInput) && r != Failure(InputTooLong) && !r.Success?;
    }
  }

  /**
   * Phrases are compared with the lowered question but are not lowered themselves, so a
   * caller-supplied phrase holding an upper-case ASCII letter never causes a rejection.
   */
  lemma UppercasePhraseNeverMatches(s: string, phrase: string, k: nat)
    requires k < |phrase| && 'A' <= phrase[k] <= 'Z'
    ensures !Contains(Lower(s), phrase)
  {
    var lowered := Lower(s);
    forall i | 0 <= i <= |lowered| - |phrase| ensures !OccursAt(lowered, phrase, i) {
      if i + |phrase| <= |lowered| {
        assert lowered[i..i + |phrase|][k] == LowerChar(s[i + k]);
      }
    }
  }

  // ---------------------------------------------------------------------------------------
  // Properties of validate_output
  // ---------------------------------------------------------------------------------------

  /** Only the content of the last message decides the outcome. */
  lemma ValidateOutputOnlyLastMessage(g: GuardrailsSecurity, c1: map<string, seq<ChatMessage>>, c2: map<string, seq<ChatMessage>>)
    requires MessagesOf(c1) != [] && MessagesOf(c2) != []
    requires MessagesOf(c1)[|MessagesOf(c1)| - 1].content == MessagesOf(c2)[|MessagesOf(c2)| - 1].content
    ensures g.ValidateOutput(c1) == g.ValidateOutput(c2)
  {
  }

  /** A last message that is blank is accepted, as the empty string: no pattern matches "". */
  lemma BlankAnswerAccepted(g: GuardrailsSecurity, content: map<string, seq<ChatMessage>>)
    requires g.blockedRegex == BlockedRegex && g.maxOutputChars >= 0
    requires MessagesOf(content) != [] && AllSpace(MessagesOf(content)[|MessagesOf(content)| - 1].content)
    ensures g.ValidateOutput(content) == Success("")
  {
    StripEmptyIffAllSpace(MessagesOf(content)[|MessagesOf(content)| - 1].content);
    assert forall p :: p in BlockedRegex ==> !(p.Marker? && p.word == []);
    forall p | p in BlockedRegex ensures !Search(p, "") {
      EmptyTextMatchesNothing(p);
    }
  }

  lemma EmptyTextMatchesNothing(p: Pattern)
    requires !(p.Marker? && p.word == [])
    ensures !Search(p, "")
  {
  }

  /** A `(?i)` literal is found exactly when it occurs in the ASCII-lowered text. */
  lemma MarkerSearchIffContains(w: string, s: string)
    ensures Search(Marker(w), s) <==> Contains(Lower(s), w)
  {
    if Search(Marker(w), s) {
      var i :| 0 <= i <= |s| && MatchesAt(Marker(w), s, i);
      LowerSlice(s, i, i + |w|);
      assert OccursAt(Lower(s), w, i);
    }
    if Contains(Lower(s), w) {
      var i :| 0 <= i <= |s| - |w| && OccursAt(Lower(s), w, i);
      LowerSlice(s, i, i + |w|);
      assert MatchesAt(Marker(w), s, i);
    }
  }

  /** An accepted answer carries none of the secret markers, in any ASCII case, and no key-shaped token. */
  lemma AcceptedOutputHasNoSecrets(g: GuardrailsSecurity, content: map<string, seq<ChatMessage>>)
    requires g.blockedRegex == BlockedRegex
    requires g.ValidateOutput(content).Success?
    ensures var v := g.ValidateOutput(content).value;
      && |v| <= g.maxOutputChars
      && (forall w :: w in SecretMarkers ==> !Contains(Lower(v), w))
      && !Search(GoogleApiKey, v) && !Search(OpenAiKey, v)
  {
    AcceptedOutputMatchesNothing(g, content);
    UnmatchedTextHasNoSecrets(g.ValidateOutput(content).value);
  }

  /** A text in which no pattern of `_blocked_regex` is found carries no marker and no key shape. */
  lemma UnmatchedTextHasNoSecrets(v: string)
    requires !HasMatch(BlockedRegex, v)
    ensures forall w :: w in SecretMarkers ==> !Contains(Lower(v), w)
    ensures !Search(GoogleApiKey, v) && !Search(OpenAiKey, v)
  {
    forall w | w in SecretMarkers ensures !Contains(Lower(v), w) {
      SecretMarkerBlocked(w);
      MarkerSearchIffContains(w, v);
    }
    KeyPatternsBlocked();
  }

  /** Both key shapes are among the compiled patterns. */
  lemma KeyPatternsBlocked()
    ensures GoogleApiKey in BlockedRegex && OpenAiKey in BlockedRegex
  {
    assert BlockedRegex[0] == GoogleApiKey && BlockedRegex[1] == OpenAiKey;
  }

  /** An accepted answer is within the limit and no pattern of the gate is found in it. */
  lemma AcceptedOutputMatchesNothing(g: GuardrailsSecurity, content: map<string, seq<ChatMessage>>)
    requires g.ValidateOutput(content).Success?
    ensures |g.ValidateOutput(content).value| <= g.maxOutputChars
    ensures !HasMatch(g.blockedRegex, g.ValidateOutput(content).value)
  {
    var r := g.ValidateOutput(content);
    var messages := MessagesOf(content);
    assert r != Failure(EmptyOutput);
    assert r.value == Strip(messages[|messages| - 1].content);
    assert r != Failure(SensitiveOutput) && r != Failure(OutputTooLong);
  }

  /** Every secret marker is one of the compiled patterns. */
  lemma SecretMarkerBlocked(w: string)
    requires w in SecretMarkers
    ensures Marker(w) in BlockedRegex
  {
    var j :| 0 <= j < |SecretMarkers| && SecretMarkers[j] == w;
    assert BlockedRegex[j + 2] == Marker(w);
  }

  /** The index where the run of ASCII letters and digits that starts at `from` ends. */
  function AlnumRunEnd(s: string, from: nat): (e: nat)
    requires from <= |s|
    ensures from <= e <= |s| && AlnumSpan(s, from, e)
    ensures e == |s| || !IsAsciiAlnum(s[e])
    decreases |s| - from
  {
    if from < |s| && IsAsciiAlnum(s[from]) then AlnumRunEnd(s, from + 1) else from
  }

  /**
   * How `\bsk-[A-Za-z0-9]{20,}\b` backtracks: it matches at `i` exactly when the whole run of
   * letters and digits after `sk-` is at least 20 long and is not followed by `_` (a shorter
   * piece of the run never ends on a word boundary).
   */
  lemma OpenAiKeyMatchesWholeRun(s: string, i: nat)
    ensures MatchesAt(OpenAiKey, s, i) <==>
      && WordBoundary(s, i) && OccursAt(s, "sk-", i)
      && AlnumRunEnd(s, i + 3) - (i + 3) >= 20
      && (AlnumRunEnd(s, i + 3) == |s| || s[AlnumRunEnd(s, i + 3)] != '_')
  {
    if MatchesAt(OpenAiKey, s, i) {
      var n :| 20 <= n <= |s| && OpenAiTail(s, i, n);
      assert i + 3 + n == AlnumRunEnd(s, i + 3);
    }
    if && WordBoundary(s, i) && OccursAt(s, "sk-", i)
       && AlnumRunEnd(s, i + 3) - (i + 3) >= 20
       && (AlnumRunEnd(s, i + 3) == |s| || s[AlnumRunEnd(s, i + 3)] != '_')
    {
      var e := AlnumRunEnd(s, i + 3);
      assert IsAsciiAlnum(s[e - 1]);
      assert OpenAiTail(s, i, e - (i + 3));
    }
  }

  /** An answer that is just `sk-` and 20 or more letters and digits is rejected as sensitive. */
  lemma RejectsBareOpenAiKey(g: GuardrailsSecurity, content: map<string, seq<ChatMessage>>, key: string)
    requires g.blockedRegex == BlockedRegex
    requires MessagesOf(content) != []
    requires Strip(MessagesOf(content)[|MessagesOf(content)| - 1].content) == "sk-" + key
    requires |key| >= 20 && AlnumSpan(key, 0, |key|)
    requires 3 + |key| <= g.maxOutputChars
    ensures g.ValidateOutput(content) == Failure(SensitiveOutput)
  {
    var messages := MessagesOf(content);
    var normalized := Strip(messages[|messages| - 1].content);
    BareOpenAiKeyFound(key);
    KeyPatternsBlocked();
    assert OpenAiKey in g.blockedRegex && Search(OpenAiKey, normalized);
    assert HasMatch(g.blockedRegex, normalized) && |normalized| <= g.maxOutputChars;
  }

  /**
   * `AIza` followed by 35 characters of `[0-9A-Za-z\-_]`, the last a word character, and nothing
   * else, is a Google API key.
   */
  lemma BareGoogleApiKeyFound(key: string)
    requires |key| == 35 && KeySpan(key, 0, 35) && IsWordChar(key[34])
    ensures Search(GoogleApiKey, "AIza" + key)
  {
    var s := "AIza" + key;
    assert OccursAt(s, "AIza", 0);
    assert KeySpan(s, 4, 39) by {
      forall k | 4 <= k < 39 ensures IsKeyChar(s[k]) {
        assert s[k] == key[k - 4];
      }
    }
    assert s[38] == key[34];
    assert MatchesAt(GoogleApiKey, s, 0);
  }

  /** An answer that is just a Google API key is rejected as sensitive. */
  lemma RejectsBareGoogleApiKey(g: GuardrailsSecurity, content: map<string, seq<ChatMessage>>, key: string)
    requires g.blockedRegex == BlockedRegex
    requires MessagesOf(content) != []
    requires Strip(MessagesOf(content)[|MessagesOf(content)| - 1].content) == "AIza" + key
    requires |key| == 35 && KeySpan(key, 0, 35) && IsWordChar(key[34])
    requires 39 <= g.maxOutputChars
    ensures g.ValidateOutput(content) == Failure(SensitiveOutput)
  {
    var messages := MessagesOf(content);
    var normalized := Strip(messages[|messages| - 1].content);
    BareGoogleApiKeyFound(key);
    KeyPatternsBlocked();
    assert GoogleApiKey in g.blockedRegex && Search(GoogleApiKey, normalized);
    assert HasMatch(g.blockedRegex, normalized) && |normalized| <= g.maxOutputChars;
  }

  /** `sk-` followed by 20 or more letters and digits, and nothing else, is an OpenAI-like key. */
  lemma BareOpenAiKeyFound(key: string)
    requires |key| >= 20 && AlnumSpan(key, 0, |key|)
    ensures Search(OpenAiKey, "sk-" + key)
  {
    var s := "sk-" + key;
    assert OccursAt(s, "sk-", 0);
    assert AlnumSpan(s, 3, 3 + |key|) by {
      forall k | 3 <= k < 3 + |key| ensures IsAsciiAlnum(s[k]) {
        assert s[k] == key[k - 3];
      }
    }
    assert WordBoundary(s, |s|) by {
      assert IsAsciiAlnum(s[|s| - 1]);
    }
    assert OpenAiTail(s, 0, |key|);
    assert MatchesAt(OpenAiKey, s, 0);
  }
}
