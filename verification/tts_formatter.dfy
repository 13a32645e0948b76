/**
 * Adapts a speech payload to the conventions of the active voice engine
 * (`formatTTSContent`): pinyin is spelled and its tone numbered the way the
 * Eloquence family, or any other engine, reads pinyin-plus-digit text.
 */
module TtsFormatter {
  import opened Wrappers
  import opened Strings

  /** `TTSPayload.type`; `OtherKind` stands for any value outside the declared two. */
  datatype PayloadKind = TextKind | PinyinKind | OtherKind

  /** The formatter's argument: a plain string, or a record with a kind, a content and an optional tone. */
  datatype Payload =
    | Plain(text: string)
    | Structured(kind: PayloadKind, content: string, tone: Option<int>)

  /** The `voiceURI` used when the caller gives none. */
  const DefaultVoiceURI: string := ""

  /** The voice belongs to the Eloquence family: its lower-cased URI contains "eloquence". */
  function IsEloquence(voiceURI: string): (r: bool)
    ensures r <==> Contains(ToLower(voiceURI), "eloquence")
    ensures r ==> |voiceURI| >= 9
  {
    Includes(ToLower(voiceURI), "eloquence")
  }

  /**
   * The content part of a pinyin result: for Eloquence every `v`, then every
   * `ü`, becomes "uu"; for other engines every `ü` becomes `v`.
   */
  function SpokenSyllable(content: string, voiceURI: string): (r: string)
    ensures 'ü' !in r
    ensures IsEloquence(voiceURI) ==> 'v' !in r
    ensures NoDigits(content) ==> NoDigits(r)
  {
    if IsEloquence(voiceURI) then ReplaceAll(ReplaceAll(content, 'v', "uu"), 'ü', "uu")
    else ReplaceAll(content, 'ü', "v")
  }

  /**
   * The tone number of a pinyin result: Eloquence reads 0 as neutral and so
   * gets 0 for 5; other engines read 5 as neutral and so get 5 for 0.
   */
  function SpokenTone(tone: int, voiceURI: string): (t: int)
    ensures IsEloquence(voiceURI) ==> t != 5
    ensures !IsEloquence(voiceURI) ==> t != 0
    ensures tone != 0 && tone != 5 ==> t == tone
    ensures tone >= 0 <==> t >= 0
    ensures IsEloquence(voiceURI) && tone == 5 ==> t == 0
    ensures !IsEloquence(voiceURI) && tone == 0 ==> t == 5
  {
    if IsEloquence(voiceURI) then (if tone == 5 then 0 else tone)
    else (if tone == 0 then 5 else tone)
  }

  /**
   * `formatTTSContent(payload, voiceURI)`: only a pinyin payload is rewritten,
   * and its result never holds `ü` (nor `v`, for Eloquence).
   */
  function FormatTTSContent(payload: Payload, voiceURI: string): (r: string)
    ensures payload.Plain? ==> r == payload.text
    ensures payload.Structured? && payload.kind != PinyinKind ==> r == payload.content
    ensures payload.Structured? && payload.kind == PinyinKind ==> 'ü' !in r
    ensures payload.Structured? && payload.kind == PinyinKind && IsEloquence(voiceURI) ==> 'v' !in r
  {
    match payload
    case Plain(text) => text
    case Structured(kind, content, tone) =>
      match kind
      case TextKind => content
      case PinyinKind => SpokenSyllable(content, voiceURI) + IntToDecimal(SpokenTone(tone.GetOr(0), voiceURI))
      case OtherKind => content
  }

  /** The Eloquence spelling written as one left-to-right pass: `v` and `ü` each become "uu". */
  function UuSpelling(s: string): (r: string)
    ensures 'v' !in r && 'ü' !in r
    ensures 'v' !in s && 'ü' !in s ==> r == s
  {
    if s == [] then []
    else (if s[0] == 'v' || s[0] == 'ü' then "uu" else [s[0]]) + UuSpelling(s[1..])
  }

  /** The two global replaces of the Eloquence branch amount to the single pass `UuSpelling`. */
  lemma {:induction false} EloquenceSpelling(s: string)
    ensures ReplaceAll(ReplaceAll(s, 'v', "uu"), 'ü', "uu") == UuSpelling(s)
  {
    if s != [] {
      var head := if s[0] == 'v' then "uu" else [s[0]];
      assert ReplaceAll(s, 'v', "uu") == head + ReplaceAll(s[1..], 'v', "uu");
      ReplaceAllAppend(head, ReplaceAll(s[1..], 'v', "uu"), 'ü', "uu");
      EloquenceSpelling(s[1..]);
    }
  }

  /** A plain string is spoken as it is, whatever the voice. */
  lemma PlainPassThrough(text: string, voiceURI: string)
    ensures FormatTTSContent(Plain(text), voiceURI) == text
  {
  }

  /** A `text` payload is spoken as its content; its tone is ignored. */
  lemma TextPassThrough(content: string, tone: Option<int>, voiceURI: string)
    ensures FormatTTSContent(Structured(TextKind, content, tone), voiceURI) == content
  {
  }

  /** Formatting a result again as a plain string changes nothing. */
  lemma FormatIdempotent(payload: Payload, voiceURI: string, nextURI: string)
    ensures FormatTTSContent(Plain(FormatTTSContent(payload, voiceURI)), nextURI) ==
            FormatTTSContent(payload, voiceURI)
  {
  }

  /** The default voice URI is not an Eloquence voice. */
  lemma DefaultVoiceIsStandard()
    ensures !IsEloquence(DefaultVoiceURI)
  {
  }

  /** `ToLower` works character by character, so it distributes over concatenation. */
  lemma ToLowerAppend(a: string, b: string)
    ensures ToLower(a + b) == ToLower(a) + ToLower(b)
  {
  }

  /** "eloquence" in any letter case, anywhere in the URI, selects the Eloquence rules. */
  lemma EloquenceInAnyCase(before: string, word: string, after: string)
    requires ToLower(word) == "eloquence"
    ensures IsEloquence(before + word + after)
  {
    ToLowerAppend(before + word, after);
    ToLowerAppend(before, word);
    var lowered := ToLower(before + word + after);
    assert lowered[|before|..|before| + 9] == "eloquence";
    assert OccursAt(lowered, "eloquence", |before|);
  }

  /**
   * Eloquence: each `v` and each `ü` of the content becomes "uu", every other
   * character is kept in order, and the tone follows with 5 turned into 0.
   */
  lemma EloquencePinyin(content: string, tone: Option<int>, voiceURI: string)
    requires IsEloquence(voiceURI)
    ensures FormatTTSContent(Structured(PinyinKind, content, tone), voiceURI) ==
            UuSpelling(content) + IntToDecimal(if tone.GetOr(0) == 5 then 0 else tone.GetOr(0))
  {
    EloquenceSpelling(content);
  }

  /**
   * Other engines: each `ü` becomes `v`, every other character (a bare `v`
   * too) is kept in place, and the tone follows with 0 turned into 5.
   */
  lemma StandardPinyin(content: string, tone: Option<int>, voiceURI: string)
    requires !IsEloquence(voiceURI)
    ensures var r := FormatTTSContent(Structured(PinyinKind, content, tone), voiceURI);
      && |r| >= |content|
      && (forall i :: 0 <= i < |content| ==> r[i] == if content[i] == 'ü' then 'v' else content[i])
      && r[|content|..] == IntToDecimal(if tone.GetOr(0) == 0 then 5 else tone.GetOr(0))
  {
    var syllable := SpokenSyllable(content, voiceURI);
    assert |syllable| == |content|;
  }

  /** A missing tone counts as 0: the suffix is "0" for Eloquence and "5" for other engines. */
  lemma MissingTone(content: string, voiceURI: string)
    ensures FormatTTSContent(Structured(PinyinKind, content, None), voiceURI) ==
            SpokenSyllable(content, voiceURI) + (if IsEloquence(voiceURI) then "0" else "5")
  {
  }

  /** Where the run of decimal digits at the end of `s` begins. */
  function TrailingDigitsStart(s: string): (k: nat)
    ensures k <= |s| && AllDigits(s[k..])
    ensures 0 < k ==> !IsDigit(s[k - 1])
  {
    if s == [] then 0
    else if IsDigit(s[|s| - 1]) then
      var k := TrailingDigitsStart(s[..|s| - 1]);
      assert s[k..] == s[..|s| - 1][k..] + [s[|s| - 1]];
      k
    else |s|
  }

  /** Splits a spoken pinyin string back into its syllable and its tone number. */
  function SplitTone(s: string): (string, nat) {
    var k := TrailingDigitsStart(s);
    (s[..k], DecimalValue(s[k..]))
  }

  /** When `p` holds no digit, the digit run that ends `p + d` is exactly `d`. */
  lemma {:induction false} TrailingDigitsOf(p: string, d: string)
    requires NoDigits(p)
    requires AllDigits(d)
    ensures TrailingDigitsStart(p + d) == |p|
    decreases |d|
  {
    if d == [] {
      assert p + d == p;
    } else {
      var s := p + d;
      assert s[..|s| - 1] == p + d[..|d| - 1];
      TrailingDigitsOf(p, d[..|d| - 1]);
    }
  }

  /**
   * A pinyin result splits back into the spoken syllable and the spoken tone,
   * provided the content holds no digit and the tone is not negative.
   */
  lemma SplitToneRoundTrip(content: string, tone: nat, voiceURI: string)
    requires NoDigits(content)
    ensures SplitTone(FormatTTSContent(Structured(PinyinKind, content, Some(tone)), voiceURI)) ==
            (SpokenSyllable(content, voiceURI), SpokenTone(tone, voiceURI))
  {
    var p := SpokenSyllable(content, voiceURI);
    var t := SpokenTone(tone, voiceURI);
    var digits := NatToDecimal(t);
    TrailingDigitsOf(p, digits);
    assert (p + digits)[..|p|] == p;
    assert (p + digits)[|p|..] == digits;
    DecimalRoundTrip(t);
  }
}
