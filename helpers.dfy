/**
  The chat profanity scrubber and the letter test (client/src/helpers.ts).

  The word list comes from the `leo-profanity` library and is a parameter
  here. JavaScript strings are sequences of characters; case-insensitivity is
  ASCII case folding.
*/
module Helpers {
  import opened Wrappers

  /** The default replacement key, U+1F4A9. */
  const PileOfPoo: string := "\U{1F4A9}"

  /** The default number of input characters a replacement keeps. */
  const DefaultLimiter: int := 2

  /** A JavaScript argument: left out, `null`, or a value. */
  datatype Arg<T> = Undefined | Null | Given(value: T)

  /** `String.prototype.repeat` with a negative count throws a `RangeError`. */
  datatype ScrubError = RangeError

  // ---------------------------------------------------------------------
  // Argument correction

  /** A `limiter` that is left out, `null` or not positive becomes 2. */
  function CorrectLimiter(limiter: Arg<int>): (l: int)
    ensures l > 0
    ensures limiter.Given? && limiter.value > 0 ==> l == limiter.value
    ensures !(limiter.Given? && limiter.value > 0) ==> l == DefaultLimiter
  {
    match limiter
    case Undefined => DefaultLimiter
    case Null => DefaultLimiter
    case Given(n) => if n <= 0 then DefaultLimiter else n
  }

  /** A `replaceKey` that is left out, `null`, empty or a single space becomes the glyph. */
  function CorrectReplaceKey(replaceKey: Arg<string>): (k: string)
    ensures k != "" && k != " "
    ensures replaceKey.Given? && replaceKey.value != "" && replaceKey.value != " " ==> k == replaceKey.value
    ensures !(replaceKey.Given? && replaceKey.value != "" && replaceKey.value != " ") ==> k == PileOfPoo
  {
    match replaceKey
    case Undefined => PileOfPoo
    case Null => PileOfPoo
    case Given(s) => if s == "" || s == " " then PileOfPoo else s
  }

  // ---------------------------------------------------------------------
  // Case folding and matching

  predicate IsAsciiUpper(c: char) { 'A' <= c <= 'Z' }

  predicate IsAsciiLower(c: char) { 'a' <= c <= 'z' }

  function LowerChar(c: char): (r: char)
    ensures !IsAsciiUpper(r)
    ensures IsAsciiUpper(c) ==> r as int == c as int + 32
    ensures !IsAsciiUpper(c) ==> r == c
  {
    if IsAsciiUpper(c) then (c as int + 32) as char else c
  }

  /** `toLowerCase`. */
  function ToLower(s: string): (r: string)
    ensures |r| == |s|
    ensures forall i :: 0 <= i < |s| ==> r[i] == LowerChar(s[i])
  {
    seq(|s|, i requires 0 <= i < |s| => LowerChar(s[i]))
  }

  /** `w` occurs in `s` at position `i`. */
  predicate OccursAt(s: string, w: string, i: int)
  {
    0 <= i <= |s| - |w| && s[i..i + |w|] == w
  }

  /** `s.includes(w)`. */
  predicate Includes(s: string, w: string)
  {
    exists i :: 0 <= i <= |s| - |w| && OccursAt(s, w, i)
  }

  /** `a` and `b` agree character by character up to ASCII case. */
  predicate EqualsIgnoringCase(a: string, b: string)
    decreases |a|
  {
    && |a| == |b|
    && (|a| > 0 ==> LowerChar(a[0]) == LowerChar(b[0]) && EqualsIgnoringCase(a[1..], b[1..]))
  }

  /** The case-insensitive regular expression for `w` matches `s` at position `i`. */
  predicate MatchesAt(s: string, i: nat, w: string)
  {
    i + |w| <= |s| && EqualsIgnoringCase(s[i..i + |w|], w)
  }

  /**
    `s.replace(new RegExp(w, "gi"), v)`: every occurrence of `w`, ignoring
    case, found scanning left to right without overlaps, becomes `v`.
  */
  function ReplaceAllCaseless(s: string, w: string, v: string): string
    requires |w| > 0
    decreases |s|
  {
    if |s| < |w| then s
    else if MatchesAt(s, 0, w) then v + ReplaceAllCaseless(s[|w|..], w, v)
    else [s[0]] + ReplaceAllCaseless(s[1..], w, v)
  }

  /** `key.repeat(n)`. */
  function Repeat(key: string, n: nat): (r: string)
    ensures |r| == n * |key|
    ensures forall i :: 0 <= i < |r| ==> r[i] in key
    ensures |key| == 1 ==> forall i :: 0 <= i < |r| ==> r[i] == key[0]
  {
    if n == 0 then "" else key + Repeat(key, n - 1)
  }

  /** A remainder is unchanged by taking one divisor off a large enough dividend. */
  lemma ModDropDivisor(i: nat, k: nat)
    requires 0 < k <= i
    ensures (i - k) % k == i % k
  {
    var q, r := (i - k) / k, (i - k) % k;
    assert i == (q + 1) * k + r;
    ModUnique(i, k, q + 1, r);
  }

  /** The remainder is the one `r` with `i == q * k + r` and `0 <= r < k`. */
  lemma ModUnique(i: int, k: int, q: int, r: int)
    requires 0 < k && 0 <= r < k && i == q * k + r
    ensures i % k == r
  {
    var q', r' := i / k, i % k;
    assert (q' - q) * k == r - r' by {
      assert q' * k + r' == q * k + r;
      MulSub(q', q, k);
    }
    if q' > q {
      MulAtLeast(q' - q, k);
    } else if q' < q {
      MulAtLeast(q - q', k);
      MulNeg(q' - q, k);
    }
  }

  lemma MulSub(a: int, b: int, k: int)
    ensures (a - b) * k == a * k - b * k
  {
  }

  lemma MulNeg(a: int, k: int)
    ensures (-a) * k == -(a * k)
  {
  }

  /** A positive multiple of `k` is at least `k`. */
  lemma {:induction false} MulAtLeast(d: int, k: int)
    requires d >= 1 && k > 0
    ensures d * k >= k
    decreases d
  {
    if d > 1 {
      MulAtLeast(d - 1, k);
      assert d * k == (d - 1) * k + k;
    }
  }

  /** `key.repeat(n)` is the key written out `n` times: each position holds the key's character at that offset. */
  lemma {:induction false} RepeatIsCopies(key: string, n: nat, i: nat)
    requires |key| > 0 && i < |Repeat(key, n)|
    ensures Repeat(key, n)[i] == key[i % |key|]
    decreases n
  {
    if i >= |key| {
      assert Repeat(key, n)[i] == Repeat(key, n - 1)[i - |key|];
      RepeatIsCopies(key, n - 1, i - |key|);
      ModDropDivisor(i, |key|);
    } else {
      assert i % |key| == i;
    }
  }

  // ---------------------------------------------------------------------
  // The scrubber

  /** The first word of `list`, in list order, that `lowered` contains. */
  function FirstIncluded(list: seq<string>, lowered: string): (k: Option<nat>)
    ensures k.Some? ==> k.value < |list| && Includes(lowered, list[k.value])
    ensures k.Some? ==> forall j :: 0 <= j < k.value ==> !Includes(lowered, list[j])
    ensures k.None? <==> forall j :: 0 <= j < |list| ==> !Includes(lowered, list[j])
  {
    if list == [] then None
    else if Includes(lowered, list[0]) then Some(0)
    else
      match FirstIncluded(list[1..], lowered)
      case None => None
      case Some(k) => Some(k + 1)
  }

  /** How many input characters `input.substring(0, limiter)` keeps. */
  function Kept(input: string, limiter: int): (n: nat)
    requires limiter > 0
    ensures n <= |input| && n <= limiter
    ensures n == limiter || n == |input|
  {
    if limiter < |input| then limiter else |input|
  }

  /** The replacement value when the count passed to `repeat` is not negative. */
  function Mask(input: string, replaceKey: string, limiter: int, wordLength: nat): string
    requires 0 < limiter <= wordLength
  {
    input[..Kept(input, limiter)] + Repeat(replaceKey, wordLength - limiter)
  }

  /**
    `input.substring(0, limiter) + replaceKey.repeat(wordLength - limiter)`,
    which throws when the word is shorter than `limiter`.
  */
  function ReplacementValue(input: string, replaceKey: string, limiter: int, wordLength: nat): (r: Result<string, ScrubError>)
    requires limiter > 0
    ensures r.Err? <==> wordLength < limiter
    ensures r.Ok? ==> r.value == Mask(input, replaceKey, limiter, wordLength)
  {
    if wordLength - limiter < 0 then Err(RangeError)
    else Ok(input[..Kept(input, limiter)] + Repeat(replaceKey, wordLength - limiter))
  }

  /**
    The replacement value is the first `limiter` characters of the input, not
    of the word, followed by copies of the key that make up the rest of the
    word's length.
  */
  lemma MaskShape(input: string, replaceKey: string, limiter: int, wordLength: nat)
    requires 0 < limiter <= wordLength
    ensures var m := Mask(input, replaceKey, limiter, wordLength);
            var kept := Kept(input, limiter);
            && |m| == kept + (wordLength - limiter) * |replaceKey|
            && m[..kept] == input[..kept]
            && (forall i :: kept <= i < |m| ==> m[i] in replaceKey)
            && (|replaceKey| == 1 ==> forall i :: kept <= i < |m| ==> m[i] == replaceKey[0])
            && (|replaceKey| > 0 ==> forall i :: kept <= i < |m| ==> m[i] == replaceKey[(i - kept) % |replaceKey|])
  {
    var kept := Kept(input, limiter);
    var tail := Repeat(replaceKey, wordLength - limiter);
    var m := input[..kept] + tail;
    assert forall i :: kept <= i < |m| ==> m[i] == tail[i - kept];
    if |replaceKey| > 0 {
      forall i | kept <= i < |m| ensures m[i] == replaceKey[(i - kept) % |replaceKey|] {
        RepeatIsCopies(replaceKey, wordLength - limiter, i - kept);
      }
    }
  }

  /**
    `cleanUpProfanity(input, replaceKey, limiter)` over the word list `list`:
    the arguments are corrected, then only the first listed word contained in
    the lower-cased input is acted on, and every case-insensitive occurrence of
    it is replaced by one replacement value.
  */
  function Scrub(list: seq<string>, input: string, replaceKey: Arg<string>, limiter: Arg<int>): (r: Result<string, ScrubError>)
    ensures FirstIncluded(list, ToLower(input)).None? ==> r == Ok(input)
    ensures r.Err? <==>
      var k := FirstIncluded(list, ToLower(input));
      k.Some? && |list[k.value]| < CorrectLimiter(limiter)
  {
    var l := CorrectLimiter(limiter);
    var key := CorrectReplaceKey(replaceKey);
    match FirstIncluded(list, ToLower(input))
    case None => Ok(input)
    case Some(k) =>
      match ReplacementValue(input, key, l, |list[k]|)
      case Err(e) => Err(e)
      case Ok(v) => Ok(ReplaceAllCaseless(input, list[k], v))
  }

  /** `cleanUpProfanity`, with its `for` loop over the list that stops at the first contained word. */
  method CleanUpProfanity(list: seq<string>, input: string, replaceKey: Arg<string>, limiter: Arg<int>)
    returns (r: Result<string, ScrubError>)
    ensures r == Scrub(list, input, replaceKey, limiter)
  {
    var l := CorrectLimiter(limiter);
    var key := CorrectReplaceKey(replaceKey);
    var output := input;
    for i := 0 to |list|
      invariant output == input
      invariant forall j :: 0 <= j < i ==> !Includes(ToLower(input), list[j])
    {
      var word := list[i];
      if Includes(ToLower(output), word) {
        var replaceValue := ReplacementValue(output, key, l, |word|);
        if replaceValue.Err? {
          return Err(replaceValue.error);
        }
        output := ReplaceAllCaseless(output, word, replaceValue.value);
        break;
      }
    }
    return Ok(output);
  }

  /** `isLetter`: a one-character string matching `/[a-z]/i`. */
  function IsLetter(s: string): (r: bool)
    ensures r <==> |s| == 1 && (IsAsciiLower(s[0]) || IsAsciiUpper(s[0]))
  {
    |s| == 1 && IsAsciiLower(LowerChar(s[0]))
  }

  // ---------------------------------------------------------------------
  // Facts about matching and replacing

  /** Folding twice is folding once. */
  lemma LowerCharIdempotent(c: char)
    ensures LowerChar(LowerChar(c)) == LowerChar(c)
  {
  }

  /** Agreeing up to case is having the same lower-case form. */
  lemma {:induction false} EqualsIgnoringCaseLower(a: string, b: string)
    ensures EqualsIgnoringCase(a, b) <==> |a| == |b| && ToLower(a) == ToLower(b)
    decreases |a|
  {
    if |a| == |b| && |a| > 0 {
      EqualsIgnoringCaseLower(a[1..], b[1..]);
      assert ToLower(a) == [LowerChar(a[0])] + ToLower(a[1..]);
      assert ToLower(b) == [LowerChar(b[0])] + ToLower(b[1..]);
    }
  }

  /** A word the lower-cased input contains is matched by its case-insensitive expression. */
  lemma IncludedWordMatches(input: string, w: string)
    requires Includes(ToLower(input), w)
    ensures exists i :: MatchesAt(input, i, w)
  {
    var lowered := ToLower(input);
    var i :| 0 <= i <= |lowered| - |w| && OccursAt(lowered, w, i);
    assert ToLower(input[i..i + |w|]) == lowered[i..i + |w|] == w;
    forall k | 0 <= k < |w| ensures ToLower(w)[k] == w[k] {
      LowerCharIdempotent(input[i + k]);
    }
    EqualsIgnoringCaseLower(input[i..i + |w|], w);
    assert MatchesAt(input, i, w);
  }

  /** Matching in a suffix is matching in the whole string, shifted. */
  lemma MatchesAtShift(s: string, d: nat, i: nat, w: string)
    requires d <= |s|
    ensures MatchesAt(s[d..], i, w) <==> MatchesAt(s, d + i, w)
  {
    if d + i + |w| <= |s| {
      assert s[d..][i..i + |w|] == s[d + i..d + i + |w|];
    }
  }

  /** With no occurrence of the word, replacing changes nothing. */
  lemma {:induction false} ReplaceAllAbsent(s: string, w: string, v: string)
    requires |w| > 0
    requires forall i :: 0 <= i <= |s| ==> !MatchesAt(s, i, w)
    ensures ReplaceAllCaseless(s, w, v) == s
    decreases |s|
  {
    if |s| >= |w| {
      assert !MatchesAt(s, 0, w);
      forall i | 0 <= i <= |s[1..]| ensures !MatchesAt(s[1..], i, w) {
        MatchesAtShift(s, 1, i, w);
      }
      ReplaceAllAbsent(s[1..], w, v);
    }
  }

  /** One step of the left-to-right scan. */
  lemma ReplaceAllUnfold(s: string, w: string, v: string)
    requires |w| > 0 && |s| >= |w|
    ensures MatchesAt(s, 0, w) ==> ReplaceAllCaseless(s, w, v) == v + ReplaceAllCaseless(s[|w|..], w, v)
    ensures !MatchesAt(s, 0, w) ==> ReplaceAllCaseless(s, w, v) == [s[0]] + ReplaceAllCaseless(s[1..], w, v)
  {
  }

  /** Up to the first occurrence nothing changes, and the first occurrence becomes the value. */
  lemma {:induction false} ReplaceAllFirstOccurrence(s: string, w: string, v: string, first: nat)
    requires |w| > 0
    requires MatchesAt(s, first, w)
    requires forall i :: 0 <= i < first ==> !MatchesAt(s, i, w)
    ensures ReplaceAllCaseless(s, w, v) == s[..first] + v + ReplaceAllCaseless(s[first + |w|..], w, v)
    decreases first
  {
    if first == 0 {
      ReplaceAllUnfold(s, w, v);
      assert s[..0] + v == v;
    } else {
      var t := s[1..];
      MatchesAtShift(s, 1, first - 1, w);
      forall i | 0 <= i < first - 1 ensures !MatchesAt(t, i, w) {
        MatchesAtShift(s, 1, i, w);
      }
      ReplaceAllFirstOccurrence(t, w, v, first - 1);
      assert t[first - 1 + |w|..] == s[first + |w|..];
      assert !MatchesAt(s, 0, w);
      PrependUnmatched(s, w, v, first, ReplaceAllCaseless(s[first + |w|..], w, v));
    }
  }

  /** A character that starts no match is kept in front of the rest. */
  lemma PrependUnmatched(s: string, w: string, v: string, first: nat, rest: string)
    requires |w| > 0 && 0 < first < |s| && |s| >= |w|
    requires !MatchesAt(s, 0, w)
    requires ReplaceAllCaseless(s[1..], w, v) == s[1..][..first - 1] + v + rest
    ensures ReplaceAllCaseless(s, w, v) == s[..first] + v + rest
  {
    ReplaceAllUnfold(s, w, v);
    ConsConcat(s, first, v, rest);
  }

  lemma ConsConcat(s: string, first: nat, v: string, rest: string)
    requires 0 < first <= |s|
    ensures [s[0]] + (s[1..][..first - 1] + v + rest) == s[..first] + v + rest
  {
    assert [s[0]] + s[1..][..first - 1] == s[..first];
  }

  /** A value as long as the word gives an output as long as the input. */
  lemma {:induction false} ReplaceAllKeepsLength(s: string, w: string, v: string)
    requires |w| > 0 && |v| == |w|
    ensures |ReplaceAllCaseless(s, w, v)| == |s|
    decreases |s|
  {
    if |s| >= |w| {
      if MatchesAt(s, 0, w) {
        ReplaceAllKeepsLength(s[|w|..], w, v);
      } else {
        ReplaceAllKeepsLength(s[1..], w, v);
      }
    }
  }

  // ---------------------------------------------------------------------
  // Facts about the scrubber

  /** Only the first contained word matters: the words after it could be dropped. */
  lemma ScrubOnlyFirstWord(list: seq<string>, input: string, replaceKey: Arg<string>, limiter: Arg<int>, k: nat)
    requires FirstIncluded(list, ToLower(input)) == Some(k)
    ensures Scrub(list, input, replaceKey, limiter) == Scrub([list[k]], input, replaceKey, limiter)
  {
    assert FirstIncluded([list[k]], ToLower(input)) == Some(0);
  }

  /** The output of a successful scrub that acted on word `k`. */
  lemma ScrubActsOn(list: seq<string>, input: string, replaceKey: Arg<string>, limiter: Arg<int>, k: nat)
    returns (v: string)
    requires FirstIncluded(list, ToLower(input)) == Some(k)
    requires Scrub(list, input, replaceKey, limiter).Ok?
    ensures |list[k]| >= CorrectLimiter(limiter)
    ensures ReplacementValue(input, CorrectReplaceKey(replaceKey), CorrectLimiter(limiter), |list[k]|) == Ok(v)
    ensures Scrub(list, input, replaceKey, limiter).value == ReplaceAllCaseless(input, list[k], v)
  {
    v := ReplacementValue(input, CorrectReplaceKey(replaceKey), CorrectLimiter(limiter), |list[k]|).value;
  }

  /** A word the lower-cased input contains has a leftmost case-insensitive match. */
  lemma FirstMatch(input: string, w: string) returns (first: nat)
    requires Includes(ToLower(input), w)
    ensures MatchesAt(input, first, w)
    ensures forall i :: 0 <= i < first ==> !MatchesAt(input, i, w)
  {
    IncludedWordMatches(input, w);
    first := LeastMatch(input, w);
  }

  /** The leftmost position where the word matches. */
  lemma LeastMatch(s: string, w: string) returns (first: nat)
    requires exists i :: MatchesAt(s, i, w)
    ensures MatchesAt(s, first, w)
    ensures forall i :: 0 <= i < first ==> !MatchesAt(s, i, w)
  {
    var some: nat :| MatchesAt(s, some, w);
    first := 0;
    while !MatchesAt(s, first, w)
      invariant first <= some
      invariant forall i :: 0 <= i < first ==> !MatchesAt(s, i, w)
      decreases some - first
    {
      first := first + 1;
    }
  }

  /**
    With a one-character key (the default glyph is one) and an input at least
    `limiter` long, the scrubbed text is exactly as long as the input.
  */
  lemma ScrubKeepsLength(list: seq<string>, input: string, replaceKey: Arg<string>, limiter: Arg<int>)
    requires |CorrectReplaceKey(replaceKey)| == 1
    requires |input| >= CorrectLimiter(limiter)
    requires Scrub(list, input, replaceKey, limiter).Ok?
    ensures |Scrub(list, input, replaceKey, limiter).value| == |input|
  {
    var k := FirstIncluded(list, ToLower(input));
    if k.Some? {
      var w := list[k.value];
      var v := ReplacementValue(input, CorrectReplaceKey(replaceKey), CorrectLimiter(limiter), |w|).value;
      ReplaceAllKeepsLength(input, w, v);
    }
  }
}
