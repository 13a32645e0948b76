/**
 * Tone-mark placement for one pinyin syllable (`convertToPinyin`): `v` is
 * spelled `ü`, the vowel that carries the tone is chosen by a fixed
 * precedence and is replaced by its toned form from `toneMap`.
 */
module Pinyin {
  import opened Wrappers
  import opened Strings

  /** `toneMap[c]`: the four toned forms of a base vowel, for tones 1 to 4. */
  function ToneRow(c: char): (r: Option<seq<char>>)
    ensures r.Some? <==> IsVowel(c) || c == 'v'
    ensures r.Some? ==> |r.value| == 4
    ensures r.Some? ==> forall j :: 0 <= j < |r.value| ==> r.value[j] != c && r.value[j] != 'v'
    ensures r.Some? ==> forall j, k :: 0 <= j < k < |r.value| ==> r.value[j] != r.value[k]
  {
    match c
    case 'a' => Some(['ā', 'á', 'ǎ', 'à'])
    case 'o' => Some(['ō', 'ó', 'ǒ', 'ò'])
    case 'e' => Some(['ē', 'é', 'ě', 'è'])
    case 'i' => Some(['ī', 'í', 'ǐ', 'ì'])
    case 'u' => Some(['ū', 'ú', 'ǔ', 'ù'])
    case 'v' => Some(['ǖ', 'ǘ', 'ǚ', 'ǜ'])
    case 'ü' => Some(['ǖ', 'ǘ', 'ǚ', 'ǜ'])
    case _ => None
  }

  /** The vowels the tone can land on once `v` is spelled `ü`. */
  predicate IsVowel(c: char) {
    c == 'a' || c == 'o' || c == 'e' || c == 'i' || c == 'u' || c == 'ü'
  }

  /** The vowels of the fallback scan. */
  predicate IsMedial(c: char) {
    c == 'i' || c == 'u' || c == 'ü'
  }

  /**
   * `toneMap[c]?.[tone - 1]`: present exactly when `c` has a row and `tone` is 1 to 4;
   * the toned form is a new character and never `v`.
   */
  function TonedVowel(c: char, tone: int): (r: Option<char>)
    ensures r.Some? <==> ToneRow(c).Some? && 1 <= tone <= 4
    ensures r.Some? ==> r.value != c && r.value != 'v'
  {
    match ToneRow(c)
    case Some(row) => if 0 <= tone - 1 < |row| then Some(row[tone - 1]) else None
    case None => None
  }

  /** `input.replace(/v/g, 'ü')`. */
  function WithUmlaut(input: string): (r: string)
    ensures |r| == |input| && 'v' !in r
    ensures forall i :: 0 <= i < |input| ==> r[i] == if input[i] == 'v' then 'ü' else input[i]
  {
    ReplaceAll(input, 'v', "ü")
  }

  /** The first position of the fallback scan: the leftmost `i`, `u` or `ü`, or -1. */
  function FirstMedial(s: string): (r: int)
    ensures r == -1 <==> forall j :: 0 <= j < |s| ==> !IsMedial(s[j])
    ensures r != -1 ==> IsFirstMedial(s, r)
  {
    if s == [] then -1
    else if IsMedial(s[0]) then 0
    else
      var k := FirstMedial(s[1..]);
      if k == -1 then -1 else k + 1
  }

  /** `charToToneIndex`: the position the precedence chain picks in the rewritten text, or -1. */
  function MarkIndex(text: string): (k: int)
    ensures -1 <= k < |text|
    ensures k != -1 ==> IsVowel(text[k])
  {
    if 'a' in text then IndexOf(text, 'a')
    else if 'o' in text then IndexOf(text, 'o')
    else if 'e' in text then IndexOf(text, 'e')
    else if Includes(text, "iu") then IndexOf(text, 'u')
    else if Includes(text, "ui") then IndexOf(text, 'i')
    else FirstMedial(text)
  }

  /** `convertToPinyin(input, tone)` as a function of its inputs. */
  function PlaceTone(input: string, tone: int): (r: string)
    ensures |r| == |input|
    ensures 'v' !in r
  {
    PlaceToneIn(WithUmlaut(input), tone)
  }

  /** The tone step of `convertToPinyin`, on text whose `v` is already spelled `ü`. */
  function PlaceToneIn(text: string, tone: int): (r: string)
    ensures |r| == |text|
    ensures 'v' !in text ==> 'v' !in r
  {
    if tone == 0 then text
    else
      var k := MarkIndex(text);
      if k == -1 then text
      else
        match TonedVowel(text[k], tone)
        case Some(t) => text[..k] + [t] + text[k + 1..]
        case None => text
  }

  /**
   * `convertToPinyin(input, tone)` as the source writes it: an if-chain of
   * `includes`/`indexOf` and, when none applies, a left-to-right scan that
   * stops at the first `i`, `u` or `ü`.
   */
  method ConvertToPinyin(input: string, tone: int) returns (result: string)
    ensures result == PlaceTone(input, tone)
  {
    var text := WithUmlaut(input);
    if tone == 0 {
      return text;
    }
    var charToToneIndex := -1;
    if 'a' in text {
      charToToneIndex := IndexOf(text, 'a');
    } else if 'o' in text {
      charToToneIndex := IndexOf(text, 'o');
    } else if 'e' in text {
      charToToneIndex := IndexOf(text, 'e');
    } else if Includes(text, "iu") {
      charToToneIndex := IndexOf(text, 'u');
    } else if Includes(text, "ui") {
      charToToneIndex := IndexOf(text, 'i');
    } else {
      var i := 0;
      while i < |text|
        invariant 0 <= i <= |text|
        invariant charToToneIndex == -1
        invariant forall j :: 0 <= j < i ==> !IsMedial(text[j])
      {
        if IsMedial(text[i]) {
          charToToneIndex := i;
          break;
        }
        i := i + 1;
      }
      assert charToToneIndex == FirstMedial(text);
    }
    assert charToToneIndex == MarkIndex(text);
    assert PlaceTone(input, tone) == PlaceToneIn(text, tone);
    if charToToneIndex != -1 {
      var tonedChar := TonedVowel(text[charToToneIndex], tone);
      if tonedChar.Some? {
        return text[..charToToneIndex] + [tonedChar.value] + text[charToToneIndex + 1..];
      }
    }
    return text;
  }

  /** `r` is `text` with only position `k` replaced, by the tone-`tone` form of the vowel there. */
  predicate MarkedAt(text: string, tone: int, k: int, r: string) {
    && 0 <= k < |text|
    && TonedVowel(text[k], tone).Some?
    && r == text[k := TonedVowel(text[k], tone).value]
  }

  /** Position `k` holds the leftmost `i`, `u` or `ü` of `s`. */
  predicate IsFirstMedial(s: string, k: int) {
    0 <= k < |s| && IsMedial(s[k]) && forall j :: 0 <= j < k ==> !IsMedial(s[j])
  }

  /** Tone 0 only spells every `v` as `ü` and changes nothing else. */
  lemma NeutralTone(input: string)
    ensures |PlaceTone(input, 0)| == |input|
    ensures forall i :: 0 <= i < |input| ==>
      PlaceTone(input, 0)[i] == if input[i] == 'v' then 'ü' else input[i]
  {
  }

  /** A tone outside 0 to 4 has no `toneMap` entry: only the `v` rewrite happens. */
  lemma ToneOutOfRange(input: string, tone: int)
    requires tone < 0 || tone > 4
    ensures PlaceTone(input, tone) == WithUmlaut(input)
  {
  }

  /**
   * The result is the rewritten text itself, or that text with exactly one
   * position replaced by the toned form of the vowel it held.
   */
  lemma AtMostOneMark(input: string, tone: int)
    ensures var text := WithUmlaut(input);
      PlaceTone(input, tone) == text || exists k :: MarkedAt(text, tone, k, PlaceTone(input, tone))
  {
    var text := WithUmlaut(input);
    var r := PlaceTone(input, tone);
    if r != text {
      var k := MarkIndex(text);
      assert r == text[..k] + [TonedVowel(text[k], tone).value] + text[k + 1..];
      SpliceIsUpdate(text, k, TonedVowel(text[k], tone).value);
      assert MarkedAt(text, tone, k, r);
    }
  }

  /** Where the precedence chain picks position `k`, tones 1 to 4 mark exactly that vowel. */
  lemma MarksChosen(text: string, tone: int, k: int)
    requires 1 <= tone <= 4
    requires k == MarkIndex(text) && k != -1
    ensures MarkedAt(text, tone, k, PlaceToneIn(text, tone))
  {
    SpliceIsUpdate(text, k, TonedVowel(text[k], tone).value);
  }

  /**
   * The vowel precedence: the first `a`; else the first `o`; else the first
   * `e`; else, when "iu" occurs, the first `u`; else, when "ui" occurs, the
   * first `i`; else the leftmost `i`, `u` or `ü`.
   */
  lemma VowelPrecedence(text: string, tone: int, k: int)
    requires 1 <= tone <= 4
    ensures IsFirst(text, 'a', k) ==> MarkedAt(text, tone, k, PlaceToneIn(text, tone))
    ensures 'a' !in text && IsFirst(text, 'o', k) ==> MarkedAt(text, tone, k, PlaceToneIn(text, tone))
    ensures ('a' !in text && 'o' !in text) && IsFirst(text, 'e', k) ==> MarkedAt(text, tone, k, PlaceToneIn(text, tone))
    ensures 'a' !in text && 'o' !in text && 'e' !in text && Contains(text, "iu") && IsFirst(text, 'u', k) ==>
      MarkedAt(text, tone, k, PlaceToneIn(text, tone))
    ensures ('a' !in text && 'o' !in text && 'e' !in text && !Contains(text, "iu") && Contains(text, "ui") && IsFirst(text, 'i', k)) ==>
      MarkedAt(text, tone, k, PlaceToneIn(text, tone))
    ensures ('a' !in text && 'o' !in text && 'e' !in text && !Contains(text, "iu") && !Contains(text, "ui") && IsFirstMedial(text, k)) ==>
      MarkedAt(text, tone, k, PlaceToneIn(text, tone))
  {
    if k == MarkIndex(text) && k != -1 {
      MarksChosen(text, tone, k);
    }
  }

  /** With no vowel at all, the text comes back unchanged. */
  lemma NoVowelUnchanged(text: string, tone: int)
    requires forall i :: 0 <= i < |text| ==> !IsVowel(text[i])
    ensures PlaceToneIn(text, tone) == text
  {
  }

  /** A syllable with exactly one vowel gets the mark on that vowel, for tones 1 to 4. */
  lemma SingleVowelMarked(text: string, tone: int, k: int)
    requires 1 <= tone <= 4
    requires 0 <= k < |text| && IsVowel(text[k])
    requires forall j :: 0 <= j < |text| && j != k ==> !IsVowel(text[j])
    ensures MarkedAt(text, tone, k, PlaceToneIn(text, tone))
  {
    if text[k] == 'u' || text[k] == 'i' || text[k] == 'ü' {
      NoPairOfVowels(text, k, "iu");
      NoPairOfVowels(text, k, "ui");
    }
    assert MarkIndex(text) == k;
    MarksChosen(text, tone, k);
  }

  /**
   * On the syllable as typed (`v` standing for `ü`): with exactly one vowel,
   * tones 1 to 4 mark that vowel, and the rest is only the `v` rewrite.
   */
  lemma SingleVowelInInput(input: string, tone: int, k: int)
    requires 1 <= tone <= 4
    requires 0 <= k < |input| && (IsVowel(input[k]) || input[k] == 'v')
    requires forall j :: 0 <= j < |input| && j != k ==> !IsVowel(input[j]) && input[j] != 'v'
    ensures MarkedAt(WithUmlaut(input), tone, k, PlaceTone(input, tone))
  {
    SingleVowelMarked(WithUmlaut(input), tone, k);
  }

  /** Two vowels side by side cannot occur in a text with a single vowel. */
  lemma NoPairOfVowels(text: string, k: int, pair: string)
    requires |pair| == 2 && IsVowel(pair[0]) && IsVowel(pair[1])
    requires forall j :: 0 <= j < |text| && j != k ==> !IsVowel(text[j])
    ensures !Contains(text, pair)
  {
  }

  /** "hao" with tone 3: the `a` is marked. */
  lemma WorkedHao()
    ensures PlaceTone("hao", 3) == "hǎo"
  {
    assert WithUmlaut("hao") == "hao";
    assert PlaceToneIn("hao", 3) == "hǎo" by {
      assert MarkIndex("hao") == 1;
      assert TonedVowel('a', 3) == Some('ǎ');
      SpliceIsUpdate("hao", 1, 'ǎ');
    }
  }

  /** "lve" with tone 4: `v` is spelled `ü` and the `e` wins over it. */
  lemma WorkedLve()
    ensures PlaceTone("lve", 4) == "lüè"
  {
    assert WithUmlaut("lve") == "lüe";
    assert PlaceToneIn("lüe", 4) == "lüè" by {
      assert MarkIndex("lüe") == 2;
      assert TonedVowel('e', 4) == Some('è');
      SpliceIsUpdate("lüe", 2, 'è');
    }
  }

  /** "liu" with tone 2: "iu" puts the mark on the `u`. */
  lemma WorkedLiu()
    ensures PlaceTone("liu", 2) == "liú"
  {
    assert WithUmlaut("liu") == "liu";
    MarkLiu();
  }

  /** The tone step for "liu": "iu" occurs, so the first `u` is marked. */
  lemma MarkLiu()
    ensures PlaceToneIn("liu", 2) == "liú"
  {
    assert OccursAt("liu", "iu", 1);
    assert MarkIndex("liu") == 2;
    assert TonedVowel('u', 2) == Some('ú');
    SpliceIsUpdate("liu", 2, 'ú');
  }

  /** "gui" with tone 4: "ui" puts the mark on the `i`. */
  lemma WorkedGui()
    ensures PlaceTone("gui", 4) == "guì"
  {
    assert WithUmlaut("gui") == "gui";
    MarkGui();
  }

  /** The tone step for "gui": "iu" does not occur but "ui" does, so the first `i` is marked. */
  lemma MarkGui()
    ensures PlaceToneIn("gui", 4) == "guì"
  {
    assert !Contains("gui", "iu");
    assert OccursAt("gui", "ui", 1);
    assert MarkIndex("gui") == 2;
    assert TonedVowel('i', 4) == Some('ì');
    SpliceIsUpdate("gui", 2, 'ì');
  }
}
