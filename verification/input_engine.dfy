/**
 * The keystroke state machine (`useInputBuffer`): a buffer of pending
 * lower-case letters and the list of committed tokens, updated one key event
 * at a time. The sound cues and speech requests the handler makes are
 * returned, in order, as effects.
 */
module InputEngine {
  import opened Wrappers
  import opened Strings

  /** `Token.type`; punctuation is declared but never produced. */
  datatype TokenKind = PinyinToken | EnglishToken | PunctuationToken

  /** A committed unit: its id, its display content, the raw letters it came from, its kind and tone. */
  datatype Token = Token(id: string, content: string, raw: string, kind: TokenKind, tone: Option<int>)

  /** The cues of the audio service. */
  datatype Sound =
    | TypeSound
    | BackspaceBufferSound
    | BackspaceTokenSound
    | ConfirmPinyinSound
    | ConfirmEnglishSound
    | ErrorSound

  /** The languages a speech request can ask for. */
  datatype Lang = ZhCN | EnUS

  /** One call into the audio service: play a cue, or speak a string in a language. */
  datatype Effect = Play(sound: Sound) | Speak(text: string, lang: Lang)

  /** The language `speak` uses when the caller names none. */
  const DefaultLang: Lang := ZhCN

  /** `/^[0-9]$/.test(key)`. */
  function IsDigitKey(key: string): (r: bool)
    ensures r <==> exists d :: 0 <= d < 10 && key == [DigitChar(d)]
  {
    if |key| == 1 && IsDigit(key[0]) then
      assert key == [DigitChar(DigitValue(key[0]))];
      true
    else false
  }

  /** `/^[a-zA-Z]$/.test(key)`. */
  function IsLetterKey(key: string): (r: bool)
    ensures r ==> |key| == 1 && IsLower(LowerChar(key[0]))
    ensures |key| == 1 && (IsLower(key[0]) || IsUpper(key[0])) ==> r
  {
    |key| == 1 && IsLetter(key[0])
  }

  /** A token as the handler commits it. */
  predicate WellFormed(t: Token) {
    && t.raw != []
    && AllLower(t.raw)
    && match t.kind
       case PinyinToken =>
         t.tone.Some? && 0 <= t.tone.value <= 4 && t.content == t.raw + IntToDecimal(t.tone.value)
       case EnglishToken =>
         t.tone.None? && t.content == t.raw + " "
       case PunctuationToken => false
  }

  /** `tokens.map(t => t.content).join('')`. */
  function JoinContents(ts: seq<Token>): (r: string)
    ensures r == [] <==> forall i :: 0 <= i < |ts| ==> ts[i].content == []
    ensures ts != [] ==> ts[0].content <= r
  {
    if ts == [] then [] else ts[0].content + JoinContents(ts[1..])
  }

  /** Committing a token extends the read-all text by exactly that token's content. */
  lemma {:induction false} JoinAppend(ts: seq<Token>, t: Token)
    ensures JoinContents(ts + [t]) == JoinContents(ts) + t.content
  {
    if ts == [] {
      assert [] + [t] == [t];
    } else {
      assert (ts + [t])[1..] == ts[1..] + [t];
      JoinAppend(ts[1..], t);
    }
  }

  /** Removing the last token drops exactly its content from the end of the read-all text. */
  lemma JoinRemoveLast(ts: seq<Token>)
    requires ts != []
    ensures JoinContents(ts) == JoinContents(ts[..|ts| - 1]) + ts[|ts| - 1].content
  {
    assert ts == ts[..|ts| - 1] + [ts[|ts| - 1]];
    JoinAppend(ts[..|ts| - 1], ts[|ts| - 1]);
  }

  /** The decimal form of a single digit key is the key itself. */
  lemma DigitKeyDecimal(key: string)
    requires IsDigitKey(key)
    ensures IntToDecimal(DigitValue(key[0])) == key
  {
  }

  class InputBuffer {
    /** The letters typed since the last commit. */
    var buffer: string
    /** The committed tokens, in reading order. */
    var tokens: seq<Token>

    /** The buffer holds only `a`-`z` and every token is one the handler commits. */
    ghost predicate Valid()
      reads this
      ensures Valid() ==> forall i :: 0 <= i < |tokens| ==> tokens[i].raw != [] && tokens[i].kind != PunctuationToken
    {
      AllLower(buffer) && forall i :: 0 <= i < |tokens| ==> WellFormed(tokens[i])
    }

    /** Both state cells start empty. */
    constructor ()
      ensures Valid()
      ensures buffer == [] && tokens == []
    {
      buffer := [];
      tokens := [];
    }

    /**
     * `handleKeyDown`: one key event with its Alt, Ctrl and Meta flags; `now`
     * is the clock reading that becomes a new token's id.
     */
    method HandleKeyDown(key: string, altKey: bool, ctrlKey: bool, metaKey: bool, now: nat)
      returns (effects: seq<Effect>)
      requires Valid()
      modifies this
      ensures Valid()
      // Backspace, whatever the modifiers: the last letter, else the last token, else an error cue.
      ensures key == "Backspace" ==>
        if old(buffer) != [] then
          && buffer == old(buffer)[..|old(buffer)| - 1] && tokens == old(tokens)
          && effects == [Play(BackspaceBufferSound)]
        else if old(tokens) != [] then
          && buffer == old(buffer) && tokens == old(tokens)[..|old(tokens)| - 1]
          && effects == [Play(BackspaceTokenSound)]
        else
          buffer == old(buffer) && tokens == old(tokens) && effects == [Play(ErrorSound)]
      // A digit, whatever the modifiers, with nothing to commit: only an error cue.
      ensures IsDigitKey(key) && old(buffer) == [] ==>
        buffer == old(buffer) && tokens == old(tokens) && effects == [Play(ErrorSound)]
      // Digits 0 to 4 commit the buffer as pinyin with that tone.
      ensures IsDigitKey(key) && old(buffer) != [] && DigitValue(key[0]) <= 4 ==>
        && buffer == []
        && tokens == old(tokens) +
             [Token(NatToDecimal(now), old(buffer) + key, old(buffer), PinyinToken, Some(DigitValue(key[0])))]
        && effects == [Play(ConfirmPinyinSound), Speak(old(buffer) + key, ZhCN)]
      // Digits 5 to 9 commit the buffer as an English word.
      ensures IsDigitKey(key) && old(buffer) != [] && DigitValue(key[0]) >= 5 ==>
        && buffer == []
        && tokens == old(tokens) + [Token(NatToDecimal(now), old(buffer) + " ", old(buffer), EnglishToken, None)]
        && effects == [Play(ConfirmEnglishSound), Speak(old(buffer), EnUS)]
      // The reading controls change nothing and only speak.
      ensures altKey && key == "r" ==>
        && buffer == old(buffer) && tokens == old(tokens)
        && effects == [Speak("Reading all: " + JoinContents(old(tokens)), DefaultLang)]
      ensures altKey && key == "l" ==>
        && buffer == old(buffer) && tokens == old(tokens)
        && effects == if old(tokens) != [] then [Speak("Last entry: " + old(tokens)[|old(tokens)| - 1].content, DefaultLang)]
                      else [Play(ErrorSound)]
      ensures altKey && key == "s" ==>
        && buffer == old(buffer) && tokens == old(tokens)
        && effects == if old(buffer) != [] then [Speak("Current buffer: " + old(buffer), DefaultLang)]
                      else [Speak("Buffer empty", DefaultLang)]
      // A letter with no Ctrl, Meta or Alt is appended in lower case.
      ensures IsLetterKey(key) && !ctrlKey && !metaKey && !altKey ==>
        buffer == old(buffer) + [LowerChar(key[0])] && tokens == old(tokens) && effects == [Play(TypeSound)]
      // Every other event is ignored.
      ensures !(key == "Backspace" || IsDigitKey(key) || (altKey && (key == "r" || key == "l" || key == "s")) ||
                (IsLetterKey(key) && !ctrlKey && !metaKey && !altKey)) ==>
        buffer == old(buffer) && tokens == old(tokens) && effects == []
      // The token list only grows by one at the end or loses its last element.
      ensures || tokens == old(tokens)
              || (|tokens| == |old(tokens)| + 1 && tokens[..|old(tokens)|] == old(tokens))
              || (old(tokens) != [] && tokens == old(tokens)[..|old(tokens)| - 1])
    {
      // 1. Backspace
      if key == "Backspace" {
        if |buffer| > 0 {
          buffer := buffer[..|buffer| - 1];
          effects := [Play(BackspaceBufferSound)];
        } else if |tokens| > 0 {
          tokens := tokens[..|tokens| - 1];
          effects := [Play(BackspaceTokenSound)];
        } else {
          effects := [Play(ErrorSound)];
        }
        return;
      }

      // 2. Numeric delimiters
      if IsDigitKey(key) {
        var numKey := DigitValue(key[0]);
        if |buffer| == 0 {
          effects := [Play(ErrorSound)];
          return;
        }
        if 0 <= numKey <= 4 {
          var tone := numKey;
          var content := buffer + IntToDecimal(tone);
          DigitKeyDecimal(key);
          var newToken := Token(NatToDecimal(now), content, buffer, PinyinToken, Some(tone));
          tokens := tokens + [newToken];
          effects := [Play(ConfirmPinyinSound), Speak(content, ZhCN)];
          buffer := [];
        } else {
          var newToken := Token(NatToDecimal(now), buffer + " ", buffer, EnglishToken, None);
          tokens := tokens + [newToken];
          effects := [Play(ConfirmEnglishSound), Speak(buffer, EnUS)];
          buffer := [];
        }
        return;
      }

      // 3. Reading controls
      if altKey {
        if key == "r" {
          effects := [Speak("Reading all: " + JoinContents(tokens), DefaultLang)];
          return;
        }
        if key == "l" {
          if |tokens| > 0 {
            var last := tokens[|tokens| - 1];
            effects := [Speak("Last entry: " + last.content, DefaultLang)];
          } else {
            effects := [Play(ErrorSound)];
          }
          return;
        }
        if key == "s" {
          if buffer != [] {
            effects := [Speak("Current buffer: " + buffer, DefaultLang)];
          } else {
            effects := [Speak("Buffer empty", DefaultLang)];
          }
          return;
        }
      }

      // 4. Alphabetic input
      if IsLetterKey(key) && !ctrlKey && !metaKey && !altKey {
        buffer := buffer + [LowerChar(key[0])];
        effects := [Play(TypeSound)];
        return;
      }

      effects := [];
    }
  }

  /**
   * Typing "h", "a", "o" and then "3" into a fresh buffer commits one pinyin
   * token "hao3" and ends with the confirm cue and the spoken content.
   */
  method CommitPinyinScenario() returns (buffer: string, tokens: seq<Token>, effects: seq<Effect>)
    ensures buffer == []
    ensures tokens == [Token("42", "hao3", "hao", PinyinToken, Some(3))]
    ensures effects == [Play(ConfirmPinyinSound), Speak("hao3", ZhCN)]
  {
    var engine := new InputBuffer();
    effects := engine.HandleKeyDown("h", false, false, false, 40);
    effects := engine.HandleKeyDown("a", false, false, false, 41);
    effects := engine.HandleKeyDown("O", false, false, false, 41);
    assert engine.buffer == "hao";
    assert DigitValue('3') == 3 && NatToDecimal(42) == "42";
    effects := engine.HandleKeyDown("3", false, false, false, 42);
    assert engine.tokens == [] + [Token("42", "hao" + "3", "hao", PinyinToken, Some(3))];
    assert "hao" + "3" == "hao3";
    buffer, tokens := engine.buffer, engine.tokens;
  }

  /**
   * With "hi" typed, "7" commits the English token "hi "; a Backspace then
   * removes that token, and one more Backspace finds nothing left to erase.
   */
  method CommitAndEraseScenario() returns (afterCommit: seq<Token>, tokens: seq<Token>, effects: seq<Effect>)
    ensures afterCommit == [Token("7", "hi ", "hi", EnglishToken, None)]
    ensures tokens == []
    ensures effects == [Play(ErrorSound)]
  {
    var engine := new InputBuffer();
    effects := engine.HandleKeyDown("h", false, false, false, 1);
    effects := engine.HandleKeyDown("i", false, false, false, 2);
    assert engine.buffer == "hi";
    assert DigitValue('7') == 7 && NatToDecimal(7) == "7";
    effects := engine.HandleKeyDown("7", false, false, false, 7);
    assert effects == [Play(ConfirmEnglishSound), Speak("hi", EnUS)];
    assert engine.tokens == [] + [Token("7", "hi" + " ", "hi", EnglishToken, None)];
    assert "hi" + " " == "hi ";
    afterCommit := engine.tokens;
    effects := engine.HandleKeyDown("Backspace", false, false, false, 8);
    assert effects == [Play(BackspaceTokenSound)];
    effects := engine.HandleKeyDown("Backspace", false, false, false, 9);
    tokens := engine.tokens;
  }
}
