/** The constrained pick generator of the fine-tuned sequence model: the textual prompt,
    the bounded token loop with its two-token forced spans, the extraction of the
    generated ids and the repair step that turns them into one or two picks, topped up
    with random members of the pool.

    The tokenizer and the language model are collaborators given as function values:
    `greedy` is the arg-max of the next-token distribution, `choose` the token taken in a
    forced step (a temperature sample at budget 2, the masked arg-max at budget 1), which
    the caller promises is one of the tokens the mask lets through. The context grows by
    one token at every step, so a choice that depends on the context covers every run
    the sampler can produce. `random.sample` is a nondeterministic choice. */
module FineTuned {
  import opened Common

  type Token = nat

  /** The token id that ends generation in free mode. */
  const EndToken: Token := 0
  /** Steps of the decoding loop. */
  const MaxGenLen: nat := 30
  /** Every candidate id is two tokens long: a forced span has this budget. */
  const SpanLength: nat := 2

  const Preamble: string := "Current draft state: Player A picks: "
  const Separator: string := "; Player B picks: "
  /** The question that closes the prompt; the generated ids are read after it. */
  const Question: string := "Predict next picks for Player A:"
  const Suffix: string := "\n" + Question

  /** A pick or a pool element as Python holds it: a string or an integer. The two forms of
      one monster are different set elements. */
  datatype PyId = PyStr(s: string) | PyInt(n: int)

  /** The Python exceptions the generator can raise. */
  datatype PyError =
    | IndexError     // `[1]` on a split without the suffix, or an encoding shorter than the span
    | ValueError     // `int(id)` on a non-numeric token, or `random.sample` from a short pool
    | TypeError      // `set(None)`
    | RuntimeError   // sampling from a forced distribution whose every entry is masked
    | EncodeError    // `tokenizer.encode` of an integer pool element: a fast tokenizer raises
                     // TypeError, a slow one ValueError

  datatype Tokenizer = Tokenizer(
    encode: string -> seq<Token>,
    decode: seq<Token> -> string,
    decodeSkipSpecial: seq<Token> -> string,
    encodePick: string -> seq<Token>)

  datatype LanguageModel = LanguageModel(
    greedy: seq<Token> -> Token,
    choose: (seq<Token>, set<Token>, nat) -> Token,
    generate: seq<Token> -> seq<Token>)

  /** The forced-step choice is always one of the allowed tokens. */
  ghost predicate ChoosesAllowed(lm: LanguageModel)
  {
    forall ctx, allowed, budget :: allowed != {} ==> lm.choose(ctx, allowed, budget) in allowed
  }

  /** Python's `str(id)`. */
  function PyStrOf(id: PyId): string
  {
    match id
    case PyStr(s) => s
    case PyInt(n) => IntToString(n)
  }

  // ---------------------------------------------------------------------------
  // The prompt
  // ---------------------------------------------------------------------------

  /** `"M" + str(id)` for every id. */
  function Marked(ids: seq<PyId>): (r: seq<string>)
    ensures |r| == |ids|
  {
    seq(|ids|, i requires 0 <= i < |ids| => "M" + PyStrOf(ids[i]))
  }

  /** Every part followed by one space, as the `+=` loops build it. */
  function SpaceTerminated(parts: seq<string>): string
  {
    if parts == [] then "" else SpaceTerminated(parts[..|parts| - 1]) + parts[|parts| - 1] + " "
  }

  /** The prompt: A's marked ids each followed by a space, B's marked ids separated by
      single spaces (the trailing space trimmed), between the fixed texts. */
  function PromptText(pickA: seq<PyId>, pickB: seq<PyId>): string
  {
    Preamble + SpaceTerminated(Marked(pickA)) + Separator + Join(" ", Marked(pickB)) + Suffix
  }

  lemma {:induction false} SpaceTerminatedIsJoin(parts: seq<string>)
    requires parts != []
    ensures SpaceTerminated(parts) == Join(" ", parts) + " "
  {
    var init := parts[..|parts| - 1];
    var last := parts[|parts| - 1];
    if init != [] {
      SpaceTerminatedIsJoin(init);
      JoinSnoc(" ", init, last);
      assert init + [last] == parts;
    }
  }

  /** One of the source's `+=` loops: "M" + str(id) and a space for every id. */
  method MarkEach(picks: seq<PyId>) returns (str: string)
    ensures str == SpaceTerminated(Marked(picks))
  {
    str := "";
    for i := 0 to |picks|
      invariant str == SpaceTerminated(Marked(picks[..i]))
    {
      assert Marked(picks[..i + 1])[..i] == Marked(picks[..i]);
      str := str + "M" + PyStrOf(picks[i]) + " ";
    }
    assert picks[..|picks|] == picks;
  }

  /** Builds the prompt as the source does: two `+=` loops and `strB[:-1]`. */
  method BuildPrompt(pickA: seq<PyId>, pickB: seq<PyId>) returns (prompt: string)
    ensures prompt == PromptText(pickA, pickB)
  {
    var strA := MarkEach(pickA);
    var strB := MarkEach(pickB);
    // strB[:-1]: drop the last character, if any
    if strB != "" {
      SpaceTerminatedIsJoin(Marked(pickB));
      strB := strB[..|strB| - 1];
    }
    prompt := Preamble + strA + Separator + strB + Suffix;
  }

  // ---------------------------------------------------------------------------
  // The decoding loop
  // ---------------------------------------------------------------------------

  /** The decoding state: the growing context, the forced budget left, the tokens of the
      current forced span and the candidates not yet generated in full. */
  datatype GenState = GenState(
    ids: seq<Token>,
    forcedStep: nat,
    forcedPick: seq<Token>,
    remaining: map<PyId, seq<Token>>)

  datatype StepOutcome = Continue(next: GenState) | Stop

  /** The token decodes to a text that contains "M": an id starts. */
  predicate HasMarker(tok: Tokenizer, t: Token)
  {
    Contains(tok.decode([t]), "M")
  }

  /** Every pool element is a string, the only kind of input the tokenizer encodes. */
  predicate AllStrings(pool: seq<PyId>)
  {
    forall i :: 0 <= i < |pool| ==> pool[i].PyStr?
  }

  /** `{pick: encode(pick) for pick in pool}`: the tokenizer refuses an integer element. */
  function PickEncodings(tok: Tokenizer, pool: seq<PyId>): (r: Result<map<PyId, seq<Token>>, PyError>)
    ensures r.Err? <==> exists i :: 0 <= i < |pool| && pool[i].PyInt?
    ensures r.Err? ==> r.error == EncodeError
    ensures r.Ok? ==> forall k :: k in r.value <==> k in pool
  {
    if AllStrings(pool) then Ok(map k | k in pool && k.PyStr? :: tok.encodePick(k.s))
    else Err(EncodeError)
  }

  /** Every remaining encoding has a token at `offset`. */
  predicate EncodingsReach(remaining: map<PyId, seq<Token>>, offset: nat)
  {
    forall k :: k in remaining ==> offset < |remaining[k]|
  }

  /** The tokens the mask lets through: the token at `offset` of every remaining encoding. */
  function AllowedTokens(remaining: map<PyId, seq<Token>>, offset: nat): set<Token>
    requires EncodingsReach(remaining, offset)
  {
    set k | k in remaining :: remaining[k][offset]
  }

  /** The candidates left after a span: those whose encoding differs from the span's tokens. */
  function RemoveMatching(remaining: map<PyId, seq<Token>>, span: seq<Token>): map<PyId, seq<Token>>
  {
    map k | k in remaining && remaining[k] != span :: remaining[k]
  }

  /** One iteration of the decoding loop. */
  function Step(lm: LanguageModel, tok: Tokenizer, s: GenState): (r: Result<StepOutcome, PyError>)
    requires s.forcedStep <= SpanLength
    // a marker token is appended and opens a new span, even inside an unfinished one
    ensures HasMarker(tok, lm.greedy(s.ids)) ==>
      r == Ok(Continue(GenState(s.ids + [lm.greedy(s.ids)], SpanLength, [], s.remaining)))
    // the loop stops only on the end token, in free mode
    ensures r == Ok(Stop) <==>
      !HasMarker(tok, lm.greedy(s.ids)) && s.forcedStep == 0 && lm.greedy(s.ids) == EndToken
    // otherwise exactly one token is appended
    ensures r.Ok? && r.value.Continue? ==>
      && r.value.next.forcedStep <= SpanLength
      && |r.value.next.ids| == |s.ids| + 1
      && r.value.next.ids[..|s.ids|] == s.ids
    // a forced step appends the token at offset 0 (budget 2) or 1 (budget 1) of some
    // remaining candidate, and fails when no candidate is left
    ensures !HasMarker(tok, lm.greedy(s.ids)) && s.forcedStep > 0 && ChoosesAllowed(lm) && r.Ok? ==>
      var off := SpanLength - s.forcedStep;
      var t := r.value.next.ids[|s.ids|];
      exists k :: k in s.remaining && off < |s.remaining[k]| && s.remaining[k][off] == t
    ensures !HasMarker(tok, lm.greedy(s.ids)) && s.forcedStep > 0 && s.remaining == map[] ==> r.Err?
    // closing a span deletes exactly the candidates encoded by the span's two tokens
    ensures !HasMarker(tok, lm.greedy(s.ids)) && s.forcedStep == 1 && r.Ok? ==>
      var n := r.value.next;
      n.forcedStep == 0 && n.forcedPick == s.forcedPick + [n.ids[|s.ids|]] &&
      n.remaining == RemoveMatching(s.remaining, n.forcedPick)
    // candidates change only when a span closes
    ensures r.Ok? && r.value.Continue? && !(s.forcedStep == 1 && !HasMarker(tok, lm.greedy(s.ids))) ==>
      r.value.next.remaining == s.remaining
  {
    var t := lm.greedy(s.ids);
    if HasMarker(tok, t) then
      Ok(Continue(GenState(s.ids + [t], SpanLength, [], s.remaining)))
    else if s.forcedStep > 0 then
      var off := SpanLength - s.forcedStep;
      if !EncodingsReach(s.remaining, off) then Err(IndexError)
      else
        var allowed := AllowedTokens(s.remaining, off);
        if allowed == {} then
          Err(RuntimeError)
        else
          var c := lm.choose(s.ids, allowed, s.forcedStep);
          var span := s.forcedPick + [c];
          var rest := if s.forcedStep == 1 then RemoveMatching(s.remaining, span) else s.remaining;
          assert ChoosesAllowed(lm) ==> c in allowed;
          Ok(Continue(GenState(s.ids + [c], s.forcedStep - 1, span, rest)))
    else if t == EndToken then
      Ok(Stop)
    else
      Ok(Continue(s.(ids := s.ids + [t])))
  }

  /** At most `fuel` iterations of the loop, stopping early on the end token. */
  function Run(lm: LanguageModel, tok: Tokenizer, s: GenState, fuel: nat): Result<GenState, PyError>
    requires s.forcedStep <= SpanLength
    decreases fuel
  {
    if fuel == 0 then Ok(s)
    else
      match Step(lm, tok, s)
      case Err(e) => Err(e)
      case Ok(Stop) => Ok(s)
      case Ok(Continue(n)) => Run(lm, tok, n, fuel - 1)
  }

  /** The state before the loop: the encoded prompt in free mode, every candidate remaining. */
  function InitialState(promptIds: seq<Token>, candidates: map<PyId, seq<Token>>): GenState
  {
    GenState(promptIds, 0, [], candidates)
  }

  /** `m` is `base` with some entries deleted and none changed. */
  predicate SubMap(m: map<PyId, seq<Token>>, base: map<PyId, seq<Token>>)
  {
    m.Keys <= base.Keys && forall k :: k in m ==> m[k] == base[k]
  }

  /** What stays true between iterations: the span buffer holds the span's tokens so far,
      a half-finished span still has candidates, and candidates are only ever deleted. */
  predicate Inv(s: GenState, base: map<PyId, seq<Token>>)
  {
    && s.forcedStep <= SpanLength
    && (s.forcedStep > 0 ==> |s.forcedPick| == SpanLength - s.forcedStep)
    && (s.forcedStep == 1 ==> s.remaining != map[])
    && SubMap(s.remaining, base)
  }

  /** The loop appends at most one token per iteration, keeps the prompt as a prefix,
      and only deletes candidates; a budget-1 step therefore never meets an empty map. */
  lemma {:induction false} RunBounds(lm: LanguageModel, tok: Tokenizer, s: GenState, fuel: nat,
                                     base: map<PyId, seq<Token>>)
    requires Inv(s, base)
    ensures Run(lm, tok, s, fuel).Ok? ==>
      var e := Run(lm, tok, s, fuel).value;
      && |s.ids| <= |e.ids| <= |s.ids| + fuel
      && e.ids[..|s.ids|] == s.ids
      && Inv(e, base)
    decreases fuel
  {
    if fuel > 0 {
      match Step(lm, tok, s)
      case Err(_) =>
      case Ok(Stop) =>
      case Ok(Continue(n)) =>
        assert Inv(n, base) by {
          if !HasMarker(tok, lm.greedy(s.ids)) && s.forcedStep == 1 {
            assert n.remaining == RemoveMatching(s.remaining, n.forcedPick);
          }
        }
        RunBounds(lm, tok, n, fuel - 1, base);
        if Run(lm, tok, n, fuel - 1).Ok? {
          var e := Run(lm, tok, n, fuel - 1).value;
          assert e.ids[..|n.ids|] == n.ids;
          assert e.ids[..|s.ids|] == n.ids[..|s.ids|];
        }
    }
  }

  /** Deletes the candidates whose encoding equals the span, visiting a snapshot of the keys. */
  method DeleteMatching(remaining: map<PyId, seq<Token>>, span: seq<Token>)
    returns (r: map<PyId, seq<Token>>)
    ensures r == RemoveMatching(remaining, span)
  {
    r := remaining;
    var keys := remaining.Keys;
    while keys != {}
      invariant keys <= remaining.Keys
      invariant forall k :: k in r <==> k in remaining && (k in keys || remaining[k] != span)
      invariant forall k :: k in r ==> r[k] == remaining[k]
      decreases keys
    {
      var k :| k in keys;
      if r[k] == span {
        r := r - {k};
      }
      keys := keys - {k};
    }
  }

  /** The forced-span decoding loop over a non-empty pool, after encoding the pool. */
  method ConstrainedDecode(lm: LanguageModel, tok: Tokenizer, promptIds: seq<Token>, pool: seq<PyId>)
    returns (r: Result<seq<Token>, PyError>)
    ensures var enc := PickEncodings(tok, pool);
      enc.Err? ==> r == Err(enc.error)
    ensures var enc := PickEncodings(tok, pool);
      enc.Ok? ==>
        var run := Run(lm, tok, InitialState(promptIds, enc.value), MaxGenLen);
        r == if run.Ok? then Ok(run.value.ids) else Err(run.error)
  {
    var enc := PickEncodings(tok, pool);
    if enc.Err? {
      return Err(enc.error);
    }
    var candidates := enc.value;
    var ids := promptIds;
    var forcedPick: seq<Token> := [];
    var forcedStep: nat := 0;
    ghost var goal := Run(lm, tok, InitialState(promptIds, candidates), MaxGenLen);
    var i := 0;
    while i < MaxGenLen
      invariant 0 <= i <= MaxGenLen
      invariant forcedStep <= SpanLength
      invariant Run(lm, tok, GenState(ids, forcedStep, forcedPick, candidates), MaxGenLen - i) == goal
    {
      ghost var cur := GenState(ids, forcedStep, forcedPick, candidates);
      var t := lm.greedy(ids);
      if HasMarker(tok, t) {
        forcedStep := SpanLength;
        ids := ids + [t];
        forcedPick := [];
        i := i + 1;
        continue;
      }
      if forcedStep > 0 {
        var off := SpanLength - forcedStep;
        if !EncodingsReach(candidates, off) {
          return Err(IndexError);
        }
        var allowed := AllowedTokens(candidates, off);
        if allowed == {} {
          return Err(RuntimeError);
        }
        var c := lm.choose(ids, allowed, forcedStep);
        ids := ids + [c];
        forcedPick := forcedPick + [c];
        forcedStep := forcedStep - 1;
        if forcedStep == 0 {
          candidates := DeleteMatching(candidates, forcedPick);
        }
        assert Step(lm, tok, cur) == Ok(Continue(GenState(ids, forcedStep, forcedPick, candidates)));
        i := i + 1;
        continue;
      }
      if t == EndToken {
        break;
      }
      ids := ids + [t];
      i := i + 1;
    }
    return Ok(ids);
  }

  // ---------------------------------------------------------------------------
  // Extracting the generated ids
  // ---------------------------------------------------------------------------

  /** The white space `int()` removes at both ends: the ASCII space and `\t` to `\r`, and
      every non-ASCII white-space character. */
  predicate IsIntSpace(c: char)
  {
    || c == ' ' || ('\t' <= c <= '\r')
    || c == '\U{85}' || c == '\U{A0}' || c == '\U{1680}' || ('\U{2000}' <= c <= '\U{200A}')
    || c == '\U{2028}' || c == '\U{2029}' || c == '\U{202F}' || c == '\U{205F}' || c == '\U{3000}'
  }

  /** Python's `str.isspace` characters, which `strip()` removes at both ends: those of `int()`
      and the ASCII separators U+001C to U+001F. */
  predicate IsPySpace(c: char)
  {
    IsIntSpace(c) || ('\U{1C}' <= c <= '\U{1F}')
  }

  /** `s` without the leading characters that satisfy `white`. */
  function StripLeft(s: string, white: char -> bool): (r: string)
    ensures r != [] ==> !white(r[0])
    ensures |r| <= |s| && r == s[|s| - |r|..]
  {
    if s != [] && white(s[0]) then StripLeft(s[1..], white) else s
  }

  /** `s` without the trailing characters that satisfy `white`. */
  function StripRight(s: string, white: char -> bool): (r: string)
    ensures r != [] ==> !white(r[|r| - 1])
    ensures |r| <= |s| && r == s[..|r|]
  {
    if s != [] && white(s[|s| - 1]) then StripRight(s[..|s| - 1], white) else s
  }

  /** Python's `str.strip()`. */
  function Strip(s: string): string
  {
    StripRight(StripLeft(s, IsPySpace), IsPySpace)
  }

  /** The white space `int()` ignores around the digits. */
  function IntStrip(s: string): string
  {
    StripRight(StripLeft(s, IsIntSpace), IsIntSpace)
  }

  /** `s.replace("M", "")`. */
  function RemoveMarkers(s: string): (r: string)
    ensures 'M' !in r
  {
    if s == [] then [] else (if s[0] == 'M' then [] else [s[0]]) + RemoveMarkers(s[1..])
  }

  /** The ids written after the question: the text up to its next occurrence, stripped,
      without "M", split at every single space. */
  function ExtractIds(text: string): (r: Result<seq<string>, PyError>)
    ensures r.Err? <==> !Contains(text, Question)
    ensures r.Ok? ==> r.value != [] && forall t :: t in r.value ==> 'M' !in t && !Contains(t, " ")
  {
    var parts := Split(text, Question);
    assert |parts| >= 2 <==> Contains(text, Question) by {
      ContainsByFind(text, Question);
    }
    if |parts| < 2 then Err(IndexError)
    else
      var cleaned := RemoveMarkers(Strip(parts[1]));
      var ids := Split(cleaned, " ");
      SplitPiecesAvoidSeparator(cleaned, " ");
      SplitJoin(cleaned, " ");
      assert forall t :: t in ids ==> 'M' !in t by {
        forall t | t in ids ensures 'M' !in t {
          JoinContainsPiece(" ", ids, t);
        }
      }
      Ok(ids)
  }

  /** A piece of a join is a slice of the joined string, so its characters occur in it. */
  lemma {:induction false} JoinContainsPiece(sep: string, parts: seq<string>, p: string)
    requires p in parts
    ensures forall c :: c in p ==> c in Join(sep, parts)
  {
    if |parts| > 1 && p != parts[0] {
      JoinContainsPiece(sep, parts[1..], p);
    }
  }

  // ---------------------------------------------------------------------------
  // Repair
  // ---------------------------------------------------------------------------

  /** The digit zero of every run of ten decimal digits (Unicode general category Nd, as of
      Unicode 15.0): each run holds the digits 0 to 9 in order. */
  const DecimalZeros: seq<char> :=
    ['\U{30}', '\U{660}', '\U{6F0}', '\U{7C0}', '\U{966}', '\U{9E6}', '\U{A66}', '\U{AE6}']
    + ['\U{B66}', '\U{BE6}', '\U{C66}', '\U{CE6}', '\U{D66}', '\U{DE6}', '\U{E50}', '\U{ED0}']
    + ['\U{F20}', '\U{1040}', '\U{1090}', '\U{17E0}', '\U{1810}', '\U{1946}', '\U{19D0}', '\U{1A80}']
    + ['\U{1A90}', '\U{1B50}', '\U{1BB0}', '\U{1C40}', '\U{1C50}', '\U{A620}', '\U{A8D0}', '\U{A900}']
    + ['\U{A9D0}', '\U{A9F0}', '\U{AA50}', '\U{ABF0}', '\U{FF10}', '\U{104A0}', '\U{10D30}', '\U{11066}']
    + ['\U{110F0}', '\U{11136}', '\U{111D0}', '\U{112F0}', '\U{11450}', '\U{114D0}', '\U{11650}', '\U{116C0}']
    + ['\U{11730}', '\U{118E0}', '\U{11950}', '\U{11C50}', '\U{11D50}', '\U{11DA0}', '\U{11F50}', '\U{16A60}']
    + ['\U{16AC0}', '\U{16B50}', '\U{1D7CE}', '\U{1D7D8}', '\U{1D7E2}', '\U{1D7EC}', '\U{1D7F6}', '\U{1E140}']
    + ['\U{1E2F0}', '\U{1E4F0}', '\U{1E950}', '\U{1FBF0}']

  /** The value of a decimal digit of any script, searching the runs from `k` on. */
  function DecimalValueFrom(c: char, k: nat): (r: Option<nat>)
    ensures r.Some? ==> r.value < 10
    decreases |DecimalZeros| - k
  {
    if k >= |DecimalZeros| then None
    else if DecimalZeros[k] <= c && c as int - DecimalZeros[k] as int < 10 then
      Some(c as int - DecimalZeros[k] as int)
    else DecimalValueFrom(c, k + 1)
  }

  /** The value of a decimal digit, or nothing for any other character. */
  function DecimalValue(c: char): (r: Option<nat>)
    ensures '0' <= c <= '9' ==> r == Some(c as int - '0' as int)
    ensures r.Some? ==> r.value < 10
    ensures c < '\U{660}' && !('0' <= c <= '9') ==> r.None?
  {
    if '0' <= c <= '9' then Some(c as int - '0' as int)
    else if c < '\U{660}' then None   // no decimal digit lies between '9' and U+0660
    else DecimalValueFrom(c, 1)
  }

  predicate IsDecimal(c: char)
  {
    DecimalValue(c).Some?
  }

  predicate DigitsOrUnderscores(s: string)
  {
    forall i :: 0 <= i < |s| ==> IsDecimal(s[i]) || s[i] == '_'
  }

  /** An underscore at `i` sits between two digits. */
  predicate JoinsDigits(s: string, i: nat)
    requires i < |s|
  {
    s[i] == '_' ==> 0 < i < |s| - 1 && IsDecimal(s[i - 1]) && IsDecimal(s[i + 1])
  }

  /** One or more decimal digits in groups joined by single underscores. */
  predicate DigitGroups(s: string)
  {
    && s != []
    && DigitsOrUnderscores(s)
    && forall i :: 0 <= i < |s| ==> JoinsDigits(s, i)
  }

  /** The value of digits and underscores, the underscores ignored. */
  function GroupsValue(s: string): nat
    requires DigitsOrUnderscores(s)
  {
    if s == [] then 0
    else
      var last := s[|s| - 1];
      if last == '_' then GroupsValue(s[..|s| - 1])
      else GroupsValue(s[..|s| - 1]) * 10 + DecimalValue(last).value
  }

  /** The number of digits among digits and underscores. */
  function DigitCount(s: string): (r: nat)
    ensures r <= |s|
  {
    if s == [] then 0 else DigitCount(s[..|s| - 1]) + (if s[|s| - 1] == '_' then 0 else 1)
  }

  /** The most digits `int()` converts: CPython's default limit on integer string conversion
      (`sys.int_info.default_max_str_digits`, since Python 3.11). */
  const MaxStrDigits := 4300

  /** Digit groups `int()` converts: not more digits than the limit. */
  predicate Convertible(s: string)
  {
    DigitGroups(s) && DigitCount(s) <= MaxStrDigits
  }

  /** Python's `int(s)` on a string: optional surrounding white space, an optional sign, and
      digit groups joined by single underscores, digits of any script, at most `MaxStrDigits`
      of them; anything else raises ValueError. */
  function ParsePyInt(t: string): Option<int>
  {
    ParseStripped(IntStrip(t))
  }

  /** `int()` after the white space is gone: the sign, then the digit groups. */
  function ParseStripped(u: string): Option<int>
  {
    if u != [] && (u[0] == '-' || u[0] == '+') then
      var body := u[1..];
      if Convertible(body) then
        var v: int := GroupsValue(body);
        Some(if u[0] == '-' then -v else v)
      else None
    else if Convertible(u) then Some(GroupsValue(u))
    else None
  }

  /** On ASCII digits the value is the usual decimal value. */
  lemma {:induction false} GroupsValueAscii(s: string)
    requires forall i :: 0 <= i < |s| ==> '0' <= s[i] <= '9'
    ensures GroupsValue(s) == DigitsValue(s)
  {
    if s != [] {
      GroupsValueAscii(s[..|s| - 1]);
    }
  }

  /** Text that neither starts nor ends with white space goes to `int()`'s sign and digit
      check unchanged. */
  lemma ParseUnstripped(u: string)
    requires u != [] && !IsIntSpace(u[0]) && !IsIntSpace(u[|u| - 1])
    ensures ParsePyInt(u) == ParseStripped(u)
  {
    assert StripLeft(u, IsIntSpace) == u;
  }

  /** Digit groups without a sign read as their value. */
  lemma ParseUnsigned(u: string)
    requires Convertible(u) && u[0] != '-' && u[0] != '+'
    ensures ParseStripped(u) == Some(GroupsValue(u))
  {
  }

  /** Digit groups after a minus sign read as the negated value. */
  lemma ParseNegative(body: string)
    requires Convertible(body)
    ensures ParseStripped("-" + body) == Some(-(GroupsValue(body) as int))
  {
    assert ("-" + body)[1..] == body;
  }

  /** Without underscores every character is a digit. */
  lemma {:induction false} DigitCountAll(s: string)
    requires forall i :: 0 <= i < |s| ==> s[i] != '_'
    ensures DigitCount(s) == |s|
  {
    if s != [] {
      DigitCountAll(s[..|s| - 1]);
    }
  }

  /** The decimal digits Python writes for a natural number are one digit group of that value. */
  lemma WrittenDigits(m: nat)
    ensures DigitGroups(NatToString(m)) && GroupsValue(NatToString(m)) == m
    ensures DigitCount(NatToString(m)) == |NatToString(m)|
  {
    var digits := NatToString(m);
    forall i | 0 <= i < |digits| ensures IsDecimal(digits[i]) && JoinsDigits(digits, i) {
      assert '0' <= digits[i] <= '9';
    }
    GroupsValueAscii(digits);
    NatToStringRoundTrip(m);
    DigitCountAll(digits);
  }

  /** The digits Python writes for a natural number, with or without a minus sign, read back
      as that number when there are at most `MaxStrDigits` of them. */
  lemma ParseWritten(m: nat)
    ensures ParseStripped(NatToString(m)) == if |NatToString(m)| <= MaxStrDigits then Some(m) else None
    ensures ParseStripped("-" + NatToString(m))
         == if |NatToString(m)| <= MaxStrDigits then Some(-(m as int)) else None
  {
    var digits := NatToString(m);
    WrittenDigits(m);
    assert ("-" + digits)[1..] == digits;
    assert '0' <= digits[0] <= '9';
  }

  /** `int(str(n))` is `n`: Python reads back every integer it writes with at most
      `MaxStrDigits` digits; a longer one it refuses (CPython's `str(n)` refuses it too). */
  lemma ParseIntToString(n: int)
    ensures ParsePyInt(IntToString(n))
         == if |NatToString(if n < 0 then -n else n)| <= MaxStrDigits then Some(n) else None
  {
    var m: nat := if n < 0 then -n else n;
    var u := IntToString(n);
    assert '0' <= u[|u| - 1] <= '9';
    ParseUnstripped(u);
    ParseWritten(m);
  }

  /** A character beside one white-space character is all that stripping leaves. */
  lemma StripPair(x: char, y: char, white: char -> bool)
    requires !white(x) && white(y)
    ensures StripRight(StripLeft([x, y], white), white) == [x]
    ensures StripRight(StripLeft([y, x], white), white) == [x]
  {
    assert [x, y][..1] == [x] && [y, x][1..] == [x];
    assert StripLeft([x, y], white) == [x, y];
    assert StripRight([x], white) == [x];
    assert StripLeft([x], white) == [x];
  }

  /** A lone ASCII digit reads as its value. */
  lemma ParseDigit(a: char)
    requires '0' <= a <= '9'
    ensures ParseStripped([a]) == Some(a as int - '0' as int)
  {
    assert [a][..0] == [];
    assert JoinsDigits([a], 0);
    assert DigitCount([a]) == 1;
    assert GroupsValue([a]) == a as int - '0' as int;
  }

  /** The ASCII separators U+001C to U+001F are white space for `strip()`: a digit beside one
      is all that `strip()` leaves. */
  lemma SeparatorsStripped(a: char, c: char)
    requires '0' <= a <= '9' && '\U{1C}' <= c <= '\U{1F}'
    ensures Strip([a, c]) == [a] && Strip([c, a]) == [a]
  {
    StripPair(a, c, IsPySpace);
  }

  /** The same separators are not white space for `int()`: beside a digit they make it raise. */
  lemma SeparatorsNotIntSpace(a: char, c: char)
    requires '0' <= a <= '9' && '\U{1C}' <= c <= '\U{1F}'
    ensures ParsePyInt([a, c]) == None && ParsePyInt([c, a]) == None
  {
    assert !IsDecimal(c);
    assert !DigitsOrUnderscores([a, c]) by { assert !IsDecimal([a, c][1]); }
    assert !DigitsOrUnderscores([c, a]) by { assert !IsDecimal([c, a][0]); }
    ParseUnstripped([a, c]);
    ParseUnstripped([c, a]);
  }

  /** The white space `int()` accepts is ignored on either side of the digits. */
  lemma IntSpaceIgnored(a: char, w: char)
    requires '0' <= a <= '9' && IsIntSpace(w)
    ensures ParsePyInt([a, w]) == Some(a as int - '0' as int)
    ensures ParsePyInt([w, a]) == Some(a as int - '0' as int)
  {
    StripPair(a, w, IsIntSpace);
    ParseDigit(a);
  }

  /** An underscore between two digits is read and ignored, with or without a sign. */
  lemma UnderscoreJoinsGroups(a: char, b: char)
    requires '0' <= a <= '9' && '0' <= b <= '9'
    ensures ParsePyInt([a, '_', b]) == Some((a as int - '0' as int) * 10 + (b as int - '0' as int))
    ensures ParsePyInt(['-', a, '_', b]) == Some(-((a as int - '0' as int) * 10 + (b as int - '0' as int)))
  {
    var s := [a, '_', b];
    assert DigitGroups(s) by {
      assert JoinsDigits(s, 0) && JoinsDigits(s, 1) && JoinsDigits(s, 2);
    }
    assert GroupsValue(s) == (a as int - '0' as int) * 10 + (b as int - '0' as int) by {
      assert s[..2] == [a, '_'] && [a, '_'][..1] == [a] && [a][..0] == [];
      assert GroupsValue([a]) == a as int - '0' as int;
      assert GroupsValue([a, '_']) == GroupsValue([a]);
    }
    ParseUnstripped(s);
    ParseUnsigned(s);
    assert ['-', a, '_', b] == "-" + s;
    ParseUnstripped("-" + s);
    ParseNegative(s);
  }

  /** An underscore at either end, two in a row, or one right after the sign make the text
      unreadable. */
  lemma MisplacedUnderscores(a: char, b: char)
    requires '0' <= a <= '9' && '0' <= b <= '9'
    ensures ParsePyInt(['_', a]) == None && ParsePyInt([a, '_']) == None
    ensures ParsePyInt([a, '_', '_', b]) == None && ParsePyInt(['+', '_', a]) == None
  {
    assert !JoinsDigits(['_', a], 0) && !JoinsDigits([a, '_'], 1);
    assert !JoinsDigits([a, '_', '_', b], 1) && !JoinsDigits(['+', '_', a][1..], 0);
    ParseUnstripped(['_', a]);
    ParseUnstripped([a, '_']);
    ParseUnstripped([a, '_', '_', b]);
    ParseUnstripped(['+', '_', a]);
  }

  /** Digits of other scripts are read: an Arabic-Indic digit, alone and after an ASCII one. */
  lemma ScriptDigits(a: char, c: char)
    requires '0' <= a <= '9' && '\U{660}' <= c <= '\U{669}'
    ensures ParsePyInt([c]) == Some(c as int - 0x660)
    ensures ParsePyInt([a, c]) == Some((a as int - '0' as int) * 10 + (c as int - 0x660))
  {
    assert DecimalZeros[1] == '\U{660}';
    assert DecimalValue(c) == Some(c as int - 0x660);
    assert DigitGroups([c]) && DigitGroups([a, c]);
    assert [a, c][..1] == [a];
    ParseUnstripped([c]);
    ParseUnsigned([c]);
    ParseUnstripped([a, c]);
    ParseUnsigned([a, c]);
  }

  /** The ids accepted so far and the pool elements still usable. */
  datatype RepairState = RepairState(matched: seq<string>, usable: set<PyId>)

  /** One iteration of the repair loop. An id is accepted when its string or its integer form
      is usable, and both forms then leave the usable set. `int(id)` is evaluated for every id,
      accepted verbatim or not, and raises on a non-numeric one. */
  function Accept(t: string, acc: RepairState): (r: Result<RepairState, PyError>)
    ensures r.Err? <==> ParsePyInt(t).None?
    ensures r.Ok? ==>
      var n := ParsePyInt(t).value;
      if PyStr(t) in acc.usable || PyInt(n) in acc.usable
      then r.value == RepairState(acc.matched + [t], acc.usable - {PyStr(t), PyInt(n)})
      else r.value == acc
  {
    var n := ParsePyInt(t);
    if PyStr(t) in acc.usable then
      // accepted verbatim; `usable.discard(int(id))` still parses it
      if n.None? then Err(ValueError)
      else Ok(RepairState(acc.matched + [t], acc.usable - {PyStr(t), PyInt(n.value)}))
    else if n.None? then
      Err(ValueError)
    else if PyInt(n.value) in acc.usable then
      Ok(RepairState(acc.matched + [t], acc.usable - {PyStr(t), PyInt(n.value)}))
    else
      Ok(acc)
  }

  /** An extracted id whose digit is followed by a separator U+001C to U+001F raises, even when
      the digit alone is a usable pool element. */
  lemma SeparatorIdRaises(a: char, c: char, acc: RepairState)
    requires '0' <= a <= '9' && '\U{1C}' <= c <= '\U{1F}'
    ensures Accept([a, c], acc) == Err(ValueError)
  {
    SeparatorsNotIntSpace(a, c);
  }

  /** The repair loop over the extracted ids, from left to right. */
  function Repair(tokens: seq<string>, acc: RepairState): Result<RepairState, PyError>
    decreases |tokens|
  {
    if tokens == [] then Ok(acc)
    else
      match Accept(tokens[0], acc)
      case Err(e) => Err(e)
      case Ok(next) => Repair(tokens[1..], next)
  }

  /** The loop of the source: append to the matches, discard every form from the usable set. */
  method MatchExtracted(tokens: seq<string>, pool: set<PyId>) returns (r: Result<RepairState, PyError>)
    ensures r == Repair(tokens, RepairState([], pool))
  {
    var matched: seq<string> := [];
    var usable := pool;
    for i := 0 to |tokens|
      invariant Repair(tokens[i..], RepairState(matched, usable)) == Repair(tokens, RepairState([], pool))
    {
      var t := tokens[i];
      ghost var before := RepairState(matched, usable);
      RepairUnfold(tokens[i..], before);
      assert tokens[i..][0] == t && tokens[i..][1..] == tokens[i + 1..];
      var n := ParsePyInt(t);
      if n.None? {
        // `int(id)` is evaluated on both paths of the membership test
        assert Accept(t, before) == Err(ValueError);
        return Err(ValueError);
      }
      if PyStr(t) in usable || PyInt(n.value) in usable {
        matched := matched + [t];
        usable := usable - {PyStr(t), PyInt(n.value)};
      }
      assert Accept(t, before) == Ok(RepairState(matched, usable));
    }
    assert tokens[|tokens|..] == [];
    return Ok(RepairState(matched, usable));
  }

  lemma RepairUnfold(tokens: seq<string>, acc: RepairState)
    requires tokens != []
    ensures Repair(tokens, acc) ==
      if Accept(tokens[0], acc).Err? then Err(Accept(tokens[0], acc).error)
      else Repair(tokens[1..], Accept(tokens[0], acc).value)
  {
  }

  /** The string `t` names a pool element: verbatim, or through its integer value. */
  predicate InPoolForm(t: string, pool: set<PyId>)
  {
    PyStr(t) in pool || (ParsePyInt(t).Some? && PyInt(ParsePyInt(t).value) in pool)
  }

  /** What the invariant says of one accepted id, against a usable set. */
  predicate MatchedOut(m: string, usable: set<PyId>, pool: set<PyId>)
  {
    && ParsePyInt(m).Some?
    && InPoolForm(m, pool)
    && PyStr(m) !in usable
    && PyInt(ParsePyInt(m).value) !in usable
  }

  /** What the repair loop keeps true: matches are distinct, come from the pool, and neither
      of their forms is usable any more; the usable set only shrinks. */
  predicate RepairInv(acc: RepairState, pool: set<PyId>)
  {
    && acc.usable <= pool
    && NoDuplicates(acc.matched)
    && forall i :: 0 <= i < |acc.matched| ==> MatchedOut(acc.matched[i], acc.usable, pool)
  }

  /** An id one of whose forms is still usable has not been accepted before. */
  lemma AcceptedIsNew(t: string, acc: RepairState, pool: set<PyId>)
    requires RepairInv(acc, pool)
    requires PyStr(t) in acc.usable || (ParsePyInt(t).Some? && PyInt(ParsePyInt(t).value) in acc.usable)
    ensures t !in acc.matched
  {
    forall i | 0 <= i < |acc.matched| ensures acc.matched[i] != t {
      assert PyStr(acc.matched[i]) !in acc.usable;
      assert PyInt(ParsePyInt(acc.matched[i]).value) !in acc.usable;
    }
  }

  /** A match stays out of a usable set that shrinks. */
  lemma MatchedOutShrink(m: string, usable: set<PyId>, smaller: set<PyId>, pool: set<PyId>)
    requires MatchedOut(m, usable, pool) && smaller <= usable
    ensures MatchedOut(m, smaller, pool)
  {
  }

  /** Appending a new, readable id that names a pool element, and discarding both its forms,
      keeps the invariant. */
  lemma AppendKeepsInvariant(t: string, n: int, acc: RepairState, pool: set<PyId>)
    requires RepairInv(acc, pool) && ParsePyInt(t) == Some(n) && InPoolForm(t, pool)
    requires t !in acc.matched
    ensures RepairInv(RepairState(acc.matched + [t], acc.usable - {PyStr(t), PyInt(n)}), pool)
  {
    var next := RepairState(acc.matched + [t], acc.usable - {PyStr(t), PyInt(n)});
    forall i | 0 <= i < |next.matched| ensures MatchedOut(next.matched[i], next.usable, pool) {
      if i < |acc.matched| {
        assert next.matched[i] == acc.matched[i];
        MatchedOutShrink(acc.matched[i], acc.usable, next.usable, pool);
      } else {
        assert next.matched[i] == t;
      }
    }
  }

  lemma AcceptKeepsInvariant(t: string, acc: RepairState, pool: set<PyId>)
    requires RepairInv(acc, pool)
    ensures Accept(t, acc).Ok? ==>
      var next := Accept(t, acc).value;
      && RepairInv(next, pool)
      && next.usable <= acc.usable
      && |acc.matched| <= |next.matched| <= |acc.matched| + 1
      && next.matched[..|acc.matched|] == acc.matched
  {
    if Accept(t, acc).Ok? && Accept(t, acc).value != acc {
      var n := ParsePyInt(t).value;
      var next := Accept(t, acc).value;
      assert next == RepairState(acc.matched + [t], acc.usable - {PyStr(t), PyInt(n)});
      assert PyStr(t) in acc.usable || PyInt(n) in acc.usable;
      AcceptedIsNew(t, acc, pool);
      assert InPoolForm(t, pool);
      AppendKeepsInvariant(t, n, acc, pool);
      assert next.matched[..|acc.matched|] == acc.matched;
    }
  }

  /** The repair step accepts each id at most once, only when it names a pool element, and
      never accepts more ids than were extracted. */
  lemma {:induction false} RepairKeepsInvariant(tokens: seq<string>, acc: RepairState, pool: set<PyId>)
    requires RepairInv(acc, pool)
    ensures Repair(tokens, acc).Ok? ==>
      var res := Repair(tokens, acc).value;
      && RepairInv(res, pool)
      && res.usable <= acc.usable
      && |acc.matched| <= |res.matched| <= |acc.matched| + |tokens|
      && res.matched[..|acc.matched|] == acc.matched
    decreases |tokens|
  {
    if tokens != [] && Accept(tokens[0], acc).Ok? {
      var next := Accept(tokens[0], acc).value;
      AcceptKeepsInvariant(tokens[0], acc, pool);
      RepairKeepsInvariant(tokens[1..], next, pool);
      if Repair(tokens[1..], next).Ok? {
        var res := Repair(tokens[1..], next).value;
        assert res.matched[..|acc.matched|] == res.matched[..|next.matched|][..|acc.matched|];
      }
    }
  }

  /** `int()` cannot read the text. */
  predicate Unreadable(t: string)
  {
    ParsePyInt(t).None?
  }

  /** Some extracted id is not a text that `int()` reads. */
  predicate SomeNonNumeric(tokens: seq<string>)
  {
    Any(Unreadable, tokens)
  }

  /** The repair step raises exactly when `int()` cannot read some extracted id: an id
      not found verbatim fails in `int(id)` at the membership test, and one found verbatim
      fails in `usable.discard(int(id))`. */
  lemma {:induction false} RepairFailsIffNonNumeric(tokens: seq<string>, acc: RepairState)
    ensures Repair(tokens, acc).Err? <==> SomeNonNumeric(tokens)
    decreases |tokens|
  {
    if tokens != [] {
      RepairUnfold(tokens, acc);
      AnyCons(Unreadable, tokens);
      if Accept(tokens[0], acc).Ok? {
        RepairFailsIffNonNumeric(tokens[1..], Accept(tokens[0], acc).value);
      }
    }
  }

  /** With nothing usable nothing is accepted. */
  lemma {:induction false} RepairEmptyPool(tokens: seq<string>, matched: seq<string>)
    ensures Repair(tokens, RepairState(matched, {})).Ok? ==>
      Repair(tokens, RepairState(matched, {})).value == RepairState(matched, {})
    decreases |tokens|
  {
    if tokens != [] {
      RepairEmptyPool(tokens[1..], matched);
    }
  }

  // ---------------------------------------------------------------------------
  // The answer
  // ---------------------------------------------------------------------------

  /** The rosters' lengths for which a single pick is the expected answer: the start of the
      draft, and A with four picks against B with five. */
  predicate SinglePickPhase(pickA: seq<PyId>, pickB: seq<PyId>)
  {
    (|pickA| == |pickB| && |pickB| == 0) || (|pickA| == 4 && |pickB| == 5)
  }

  /** The answer rule: two accepted ids are returned; one is returned alone in a single-pick
      phase and otherwise after one random usable element; with none (or more than two)
      two distinct random usable elements are returned. `random.sample` raises ValueError
      when too few elements are usable. */
  predicate FollowsPolicy(matched: seq<string>, usable: set<PyId>, single: bool,
                          r: Result<seq<PyId>, PyError>)
  {
    if |matched| == 2 then r == Ok([PyStr(matched[0]), PyStr(matched[1])])
    else if |matched| == 1 && single then r == Ok([PyStr(matched[0])])
    else if |matched| == 1 then
      if usable == {} then r == Err(ValueError)
      else r.Ok? && |r.value| == 2 && r.value[0] in usable && r.value[1] == PyStr(matched[0])
    else if |usable| < 2 then r == Err(ValueError)
    else r.Ok? && |r.value| == 2 && r.value[0] != r.value[1] && r.value[0] in usable && r.value[1] in usable
  }

  /** `random.sample(list(usable), k)`: `k` distinct usable elements, or ValueError. */
  method Sample(usable: set<PyId>, k: nat) returns (r: Result<seq<PyId>, PyError>)
    ensures |usable| < k ==> r == Err(ValueError)
    ensures |usable| >= k ==> r.Ok? && |r.value| == k && NoDuplicates(r.value) && forall i :: 0 <= i < k ==> r.value[i] in usable
  {
    if |usable| < k {
      return Err(ValueError);
    }
    var picked: seq<PyId> := [];
    var left := usable;
    while |picked| < k
      invariant |picked| + |left| == |usable| && |picked| <= k
      invariant left <= usable && NoDuplicates(picked)
      invariant forall i :: 0 <= i < |picked| ==> picked[i] in usable && picked[i] !in left
      decreases k - |picked|
    {
      var x :| x in left;
      picked := picked + [x];
      left := left - {x};
    }
    return Ok(picked);
  }

  /** The answer built from the repair step's outcome. */
  method Answer(matched: seq<string>, usable: set<PyId>, single: bool) returns (r: Result<seq<PyId>, PyError>)
    ensures FollowsPolicy(matched, usable, single, r)
  {
    if |matched| == 2 {
      return Ok([PyStr(matched[0]), PyStr(matched[1])]);
    }
    if |matched| == 1 && single {
      return Ok([PyStr(matched[0])]);
    }
    if |matched| == 1 {
      var extra := Sample(usable, 1);
      if extra.Err? {
        assert usable == {};
        return Err(extra.error);
      }
      return Ok(extra.value + [PyStr(matched[0])]);
    }
    r := Sample(usable, 2);
  }

  /** After a successful repair step every answer holds one or two distinct picks, each
      naming a pool element. */
  lemma AnswerShape(acc: RepairState, pool: set<PyId>, single: bool, r: Result<seq<PyId>, PyError>)
    requires RepairInv(acc, pool)
    requires FollowsPolicy(acc.matched, acc.usable, single, r)
    ensures r.Ok? ==>
      && 1 <= |r.value| <= 2
      && NoDuplicates(r.value)
      && forall i :: 0 <= i < |r.value| ==>
           r.value[i] in pool || (r.value[i].PyStr? && InPoolForm(r.value[i].s, pool))
  {
    if r.Ok? {
      var v := r.value;
      var m := acc.matched;
      if |m| == 2 {
        assert m[0] != m[1] && InPoolForm(m[0], pool) && InPoolForm(m[1], pool);
        TwoPicks(v[0], v[1], pool);
        assert v == [v[0], v[1]];
      } else if |m| == 1 && single {
        assert InPoolForm(m[0], pool);
      } else if |m| == 1 {
        assert PyStr(m[0]) !in acc.usable && InPoolForm(m[0], pool);
        TwoPicks(v[0], v[1], pool);
        assert v == [v[0], v[1]];
      } else {
        TwoPicks(v[0], v[1], pool);
        assert v == [v[0], v[1]];
      }
    }
  }

  /** Two distinct picks, each a pool element or a text naming one. */
  lemma TwoPicks(a: PyId, b: PyId, pool: set<PyId>)
    requires a != b
    requires a in pool || (a.PyStr? && InPoolForm(a.s, pool))
    requires b in pool || (b.PyStr? && InPoolForm(b.s, pool))
    ensures NoDuplicates([a, b])
    ensures forall i :: 0 <= i < |[a, b]| ==> [a, b][i] in pool || ([a, b][i].PyStr? && InPoolForm([a, b][i].s, pool))
  {
  }

  // ---------------------------------------------------------------------------
  // The whole call
  // ---------------------------------------------------------------------------

  /** The generator's output text: greedy generation when the pool is missing or empty,
      otherwise the encoding of every pool element and then the forced-span loop. */
  function GeneratedText(lm: LanguageModel, tok: Tokenizer, pickA: seq<PyId>, pickB: seq<PyId>,
                         pool: Option<seq<PyId>>): Result<string, PyError>
  {
    var promptIds := tok.encode(PromptText(pickA, pickB));
    if pool.None? || |pool.value| == 0 then
      Ok(tok.decodeSkipSpecial(lm.generate(promptIds)))
    else
      match PickEncodings(tok, pool.value)
      case Err(e) => Err(e)
      case Ok(candidates) =>
        var run := Run(lm, tok, InitialState(promptIds, candidates), MaxGenLen);
        if run.Err? then Err(run.error) else Ok(tok.decode(run.value.ids))
  }

  function PoolSet(pool: Option<seq<PyId>>): set<PyId>
  {
    if pool.None? then {} else set x | x in pool.value
  }

  /** The extracted ids, matched against the pool; `set(None)` raises TypeError. */
  function Matches(lm: LanguageModel, tok: Tokenizer, pickA: seq<PyId>, pickB: seq<PyId>,
                   pool: Option<seq<PyId>>): Result<RepairState, PyError>
  {
    match GeneratedText(lm, tok, pickA, pickB, pool)
    case Err(e) => Err(e)
    case Ok(text) =>
      match ExtractIds(text)
      case Err(e) => Err(e)
      case Ok(tokens) =>
        if pool.None? then Err(TypeError)
        else Repair(tokens, RepairState([], PoolSet(pool)))
  }

  /** A pool holding an integer id never reaches generation: encoding that id raises. */
  lemma IntPoolRaises(lm: LanguageModel, tok: Tokenizer, pickA: seq<PyId>, pickB: seq<PyId>,
                      pool: seq<PyId>)
    requires exists i :: 0 <= i < |pool| && pool[i].PyInt?
    ensures Matches(lm, tok, pickA, pickB, Some(pool)) == Err(EncodeError)
  {
    assert |pool| > 0 && PickEncodings(tok, pool) == Err(EncodeError);
  }

  /** `predict_nexts_monsters`: one or two distinct picks, each naming a pool element, or the
      exception the source raises. */
  method PredictNextMonsters(lm: LanguageModel, tok: Tokenizer, pickA: seq<PyId>, pickB: seq<PyId>,
                             pool: Option<seq<PyId>>)
    returns (r: Result<seq<PyId>, PyError>)
    ensures var m := Matches(lm, tok, pickA, pickB, pool);
      && (m.Err? ==> r == Err(m.error))
      && (m.Ok? ==> FollowsPolicy(m.value.matched, m.value.usable, SinglePickPhase(pickA, pickB), r))
  {
    var prompt := BuildPrompt(pickA, pickB);
    var promptIds := tok.encode(prompt);
    var text: string;
    if pool.None? || |pool.value| == 0 {
      var output := lm.generate(promptIds);
      text := tok.decodeSkipSpecial(output);
    } else {
      var ids := ConstrainedDecode(lm, tok, promptIds, pool.value);
      if ids.Err? {
        return Err(ids.error);
      }
      text := tok.decode(ids.value);
    }
    assert GeneratedText(lm, tok, pickA, pickB, pool) == Ok(text);
    var extracted := ExtractIds(text);
    if extracted.Err? {
      return Err(extracted.error);
    }
    if pool.None? {
      return Err(TypeError);
    }
    var repaired := MatchExtracted(extracted.value, PoolSet(pool));
    if repaired.Err? {
      return Err(repaired.error);
    }
    r := Answer(repaired.value.matched, repaired.value.usable, SinglePickPhase(pickA, pickB));
  }

  /** Every answer of the call holds one or two distinct picks, each naming a pool element,
      and a missing or empty pool always ends in an exception: `set(None)` raises TypeError,
      and with an empty pool nothing is accepted and `random.sample` draws from an empty set. */
  lemma PredictionShape(lm: LanguageModel, tok: Tokenizer, pickA: seq<PyId>, pickB: seq<PyId>,
                        pool: Option<seq<PyId>>, r: Result<seq<PyId>, PyError>)
    requires var m := Matches(lm, tok, pickA, pickB, pool);
      && (m.Err? ==> r == Err(m.error))
      && (m.Ok? ==> FollowsPolicy(m.value.matched, m.value.usable, SinglePickPhase(pickA, pickB), r))
    ensures pool.None? || |pool.value| == 0 ==> r.Err?
    ensures pool.Some? && (exists i :: 0 <= i < |pool.value| && pool.value[i].PyInt?) ==> r == Err(EncodeError)
    ensures r.Ok? ==>
      && 1 <= |r.value| <= 2
      && NoDuplicates(r.value)
      && forall i :: 0 <= i < |r.value| ==>
           r.value[i] in PoolSet(pool) || (r.value[i].PyStr? && InPoolForm(r.value[i].s, PoolSet(pool)))
  {
    var m := Matches(lm, tok, pickA, pickB, pool);
    if pool.Some? && exists i :: 0 <= i < |pool.value| && pool.value[i].PyInt? {
      IntPoolRaises(lm, tok, pickA, pickB, pool.value);
    }
    if m.Ok? {
      var text := GeneratedText(lm, tok, pickA, pickB, pool).value;
      var tokens := ExtractIds(text).value;
      assert m == Repair(tokens, RepairState([], PoolSet(pool)));
      RepairKeepsInvariant(tokens, RepairState([], PoolSet(pool)), PoolSet(pool));
      AnswerShape(m.value, PoolSet(pool), SinglePickPhase(pickA, pickB), r);
      if |pool.value| == 0 {
        assert PoolSet(pool) == {};
        RepairEmptyPool(tokens, []);
      }
    }
  }
}
