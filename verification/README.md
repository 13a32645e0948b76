# Night Memo text engine, modelled in Dafny

Night Memo lets a user type mixed pinyin and English without looking at the
screen. Letters collect in a buffer. A digit commits the buffer: 0 to 4 commit
it as a pinyin syllable with that tone, and 5 to 9 commit it as an English word.
Every key the handler recognises is confirmed by a sound cue or by speech; any
other key is ignored. This project models the three pieces of text logic
behind that, and proves properties of them:

- `InputEngine` (`input_engine.dfy`) models the keystroke handler of
  `useInputBuffer`. Class `InputBuffer` holds the two state cells: `buffer`
  (the pending letters) and `tokens` (the committed tokens). Method
  `HandleKeyDown` takes one key event. It updates the fields the way the
  handler does and returns, in order, the sound cues and speech requests it
  would make of the audio service. Its contract states every branch of the
  handler: Backspace, digit commit, Alt+r/l/s, letter, ignored key. The
  invariant `Valid` is preserved: the buffer holds only `a`-`z`, and every
  token is well formed.
- `Pinyin` (`pinyin.dfy`) models `convertToPinyin` and its `toneMap`. The
  function `PlaceTone` is the specification. The method `ConvertToPinyin`
  follows the source's if-chain and its `for` loop with `break`, and is proved
  equal to it. Lemmas state the vowel precedence, the `v`→`ü` rewrite, and
  that at most one position changes.
- `TtsFormatter` (`tts_formatter.dfy`) models `formatTTSContent`. It covers
  the pass-through cases and the Eloquence and standard spellings of pinyin
  with their tone remapping. It also proves that the tone can be split back
  off a pinyin result.
- `Strings` (`strings.dfy`) holds the JavaScript string built-ins these rely
  on: global replace of a character, `indexOf`, `includes`, `toLowerCase`,
  and integer to decimal. `Wrappers` holds `Option`.

On these points the model follows what the code does:

- A committed pinyin token's `content` is the buffer followed by the tone digit
  (`"hao3"`). The handler never calls `convertToPinyin`.
- Speech requests are plain strings. Pinyin speaks the content (`"hao3"`) in
  zh-CN. English speaks the raw buffer in en-US. The handler never calls the
  formatter, so the formatter is modelled on its own.
- Alt+r, Alt+l and Alt+s call `speak` without a language, so they use its
  default, zh-CN (src/services/audio.ts:70). Only the lower-case keys `r`,
  `l` and `s` match.
- Backspace and the digits are handled before Alt is checked, so they work
  whatever modifiers are held. A letter is taken only when Ctrl, Meta and Alt
  are all released. Shift is never read.
- A token's id is the decimal form of the clock reading (`Date.now()`). Two
  commits in the same millisecond get the same id, so the model makes no
  uniqueness claim.

## Model

| member | source | states |
|---|---|---|
| `Strings.ReplaceAll` | src/utils/pinyin.ts:17 | Global replace of one character: the replaced character is gone unless the replacement holds it, and no character appears that was not in the input or the replacement. Without the character, the input is unchanged. With a one-character replacement, the length is kept and exactly the matching positions are rewritten. |
| `Strings.ReplaceAllAppend` | src/services/ttsFormatter.ts:26 | A global replace of a concatenation is the concatenation of the replaced parts. |
| `Strings.IndexOf` | src/utils/pinyin.ts:32-36 | `indexOf` is -1 exactly when the character is absent; otherwise it is the position of the first occurrence. |
| `Strings.Includes` | src/utils/pinyin.ts:35-36 | `includes` holds exactly when the substring occurs at some position. |
| `Strings.SpliceIsUpdate` | src/utils/pinyin.ts:51 | `substring(0, k) + c + substring(k + 1)` replaces position `k` and nothing else. |
| `Strings.LowerChar` | src/hooks/useInputBuffer.ts:108 | `toLowerCase` maps every ASCII letter into `a`-`z` and keeps every other non-upper-case character. |
| `Strings.ToLower` | src/services/ttsFormatter.ts:21 | `toLowerCase` keeps the length, turns every upper-case ASCII letter into the letter 32 code points higher (its lower-case form) and every ASCII letter into `a`-`z`, and keeps every character that is not an upper-case letter. |
| `Strings.NatToDecimal` | src/hooks/useInputBuffer.ts:44 | The decimal form of a number is non-empty, holds only digits, and has no leading zero unless the number is 0. |
| `Strings.DecimalRoundTrip` | src/services/ttsFormatter.ts:46 | Reading the decimal form of a number back gives that number. |
| `Strings.DigitValue` | src/hooks/useInputBuffer.ts:32 | `parseInt` of a digit key is below 10, and writing that value as a digit gives the key back. |
| `Strings.IntToDecimal` | src/services/ttsFormatter.ts:46 | The rendering of an integer is non-empty. It is all digits exactly when the integer is not negative. A negative integer gets a `-` followed by digits. No other character appears. |
| `Strings.IntDecimalRoundTrip` | src/services/ttsFormatter.ts:46 | Reading the optional minus sign and the digits back gives the integer. |
| `Pinyin.ToneRow` | src/utils/pinyin.ts:2-10 | `toneMap` has a row exactly for `a o e i u ü` and `v`. Each row holds four different toned forms, none equal to the base vowel or to `v`. |
| `Pinyin.TonedVowel` | src/utils/pinyin.ts:2-10 | `toneMap[c]?.[tone - 1]` exists exactly when `c` has a row and the tone is 1 to 4. The toned form differs from `c` and is never `v`. |
| `Pinyin.WithUmlaut` | src/utils/pinyin.ts:17 | `replace(/v/g, 'ü')` keeps the length, leaves no `v`, and turns exactly the `v` positions into `ü`. |
| `Pinyin.FirstMedial` | src/utils/pinyin.ts:37-45 | The fallback scan gives -1 exactly when there is no `i`, `u` or `ü`; otherwise it gives the leftmost one. |
| `Pinyin.MarkIndex` | src/utils/pinyin.ts:30-45 | The chosen position is -1 or holds one of `a o e i u ü`. |
| `Pinyin.PlaceTone` | src/utils/pinyin.ts:12-56 | The result has the input's length and contains no `v`. |
| `Pinyin.PlaceToneIn` | src/utils/pinyin.ts:19-55 | The tone step on the rewritten text keeps the length and adds no `v`. Its choice is stated by `VowelPrecedence`, `MarksChosen` and `NoVowelUnchanged`. |
| `Pinyin.ConvertToPinyin` | src/utils/pinyin.ts:12-56 | The if-chain with the `for`/`break` scan computes exactly `PlaceTone`. |
| `Pinyin.NeutralTone` | src/utils/pinyin.ts:17-21 | With tone 0, every `v` becomes `ü` and every other character is kept. |
| `Pinyin.ToneOutOfRange` | src/utils/pinyin.ts:49-50 | A tone below 0 or above 4 finds no `toneMap` entry: only the `v` rewrite happens. |
| `Pinyin.AtMostOneMark` | src/utils/pinyin.ts:47-55 | The result is either the rewritten text, or that text with one position replaced by the toned form of the vowel there. |
| `Pinyin.MarksChosen` | src/utils/pinyin.ts:47-52 | For tones 1 to 4, the position the precedence chain picks is the one that is marked. |
| `Pinyin.VowelPrecedence` | src/utils/pinyin.ts:32-45 | The mark goes on the first `a`. Without `a`, on the first `o`. Without those, on the first `e`. Then, if "iu" occurs, on the first `u`. Then, if "ui" occurs, on the first `i`. Otherwise on the leftmost `i`, `u` or `ü`. |
| `Pinyin.NoVowelUnchanged` | src/utils/pinyin.ts:55 | Text without a vowel comes back unchanged. |
| `Pinyin.SingleVowelMarked` | src/utils/pinyin.ts:32-52 | When the text has exactly one vowel, tones 1 to 4 mark that vowel. |
| `Pinyin.SingleVowelInInput` | src/utils/pinyin.ts:12-52 | On the syllable as typed (`v` counting as a vowel): with exactly one vowel, tones 1 to 4 mark that vowel in the `v`-rewritten text and change nothing else. |
| `Pinyin.WorkedHao` | src/utils/pinyin.ts:32 | "hao" with tone 3 gives "hǎo". |
| `Pinyin.WorkedLve` | src/utils/pinyin.ts:34 | "lve" with tone 4 gives "lüè". |
| `Pinyin.WorkedLiu` | src/utils/pinyin.ts:35 | "liu" with tone 2 gives "liú". |
| `Pinyin.WorkedGui` | src/utils/pinyin.ts:36 | "gui" with tone 4 gives "guì". |
| `TtsFormatter.IsEloquence` | src/services/ttsFormatter.ts:21 | A voice is Eloquence exactly when "eloquence" occurs in its lower-cased URI, so such a URI has at least 9 characters. |
| `TtsFormatter.FormatTTSContent` | src/services/ttsFormatter.ts:7-50 | A plain string, and a non-pinyin record's content, come back unchanged. A pinyin result never holds `ü`, and for Eloquence no `v`. Its full value is stated by `EloquencePinyin`, `StandardPinyin` and `MissingTone`, and `SplitToneRoundTrip` recovers syllable and tone from it. |
| `TtsFormatter.SpokenSyllable` | src/services/ttsFormatter.ts:23-37 | The content part of a pinyin result never holds `ü`. For Eloquence it holds no `v` either. It holds a digit only if the content did. |
| `TtsFormatter.SpokenTone` | src/services/ttsFormatter.ts:28-43 | Eloquence turns 5 into 0 and never gets 5. Other engines turn 0 into 5 and never get 0. Every tone other than 0 and 5 is kept, and so is its sign. |
| `TtsFormatter.UuSpelling` | src/services/ttsFormatter.ts:26 | The one-pass Eloquence spelling holds neither `v` nor `ü`. It leaves text without them unchanged. |
| `TtsFormatter.EloquenceSpelling` | src/services/ttsFormatter.ts:26 | The two global replaces `v`→"uu", then `ü`→"uu", equal the one-pass spelling. |
| `TtsFormatter.PlainPassThrough` | src/services/ttsFormatter.ts:8-9 | A plain string payload is returned unchanged. |
| `TtsFormatter.TextPassThrough` | src/services/ttsFormatter.ts:12-13 | A `text` payload returns its content and ignores the tone. |
| `TtsFormatter.FormatIdempotent` | src/services/ttsFormatter.ts:8-9 | Formatting a result again as a plain string returns it unchanged. |
| `TtsFormatter.DefaultVoiceIsStandard` | src/services/ttsFormatter.ts:7 | The default voice URI "" is not an Eloquence voice. |
| `TtsFormatter.EloquenceInAnyCase` | src/services/ttsFormatter.ts:21 | A URI with "eloquence" in any letter case, at any position, selects the Eloquence rules. |
| `TtsFormatter.EloquencePinyin` | src/services/ttsFormatter.ts:23-31 | Eloquence: each `v` and `ü` becomes "uu", other characters keep their order, and the tone follows with 5 turned into 0. |
| `TtsFormatter.StandardPinyin` | src/services/ttsFormatter.ts:33-46 | Other engines: each `ü` becomes `v`, every other character (a bare `v` too) stays in place, and the tone follows with 0 turned into 5. |
| `TtsFormatter.MissingTone` | src/services/ttsFormatter.ts:18 | A missing tone counts as 0, so the suffix is "0" for Eloquence and "5" otherwise. |
| `TtsFormatter.TrailingDigitsStart` | src/services/ttsFormatter.ts:46 | Finds where the digit run at the end of a string starts. Everything from that point on is a digit, and the character just before it is not. |
| `TtsFormatter.SplitToneRoundTrip` | src/services/ttsFormatter.ts:46 | If the content holds no digit and the tone is not negative, a pinyin result splits back into the spoken syllable and the spoken tone. |
| `InputEngine.IsDigitKey` | src/hooks/useInputBuffer.ts:30 | `/^[0-9]$/` matches exactly the one-character strings made of a digit 0 to 9. |
| `InputEngine.IsLetterKey` | src/hooks/useInputBuffer.ts:106 | `/^[a-zA-Z]$/` matches every one-character string of an ASCII letter, and only strings whose lower-cased character is in `a`-`z`. |
| `InputEngine.JoinContents` | src/hooks/useInputBuffer.ts:78 | The read-all text is empty exactly when every token's content is empty, and it starts with the first token's content. `JoinRemoveLast` states that it ends with the last one's. |
| `InputEngine.JoinAppend` | src/hooks/useInputBuffer.ts:78 | Appending a token extends the read-all text by exactly that token's content. |
| `InputEngine.JoinRemoveLast` | src/hooks/useInputBuffer.ts:21 | Removing the last token removes exactly its content from the end of the read-all text. |
| `InputEngine.DigitKeyDecimal` | src/hooks/useInputBuffer.ts:42 | `buffer + tone` appends exactly the digit key that was pressed. |
| `InputEngine.InputBuffer.Valid` | src/hooks/useInputBuffer.ts:40-66 | The invariant: the buffer holds only `a`-`z`, and every token is a pinyin or English token as the handler commits it. In particular no token has an empty raw buffer or the punctuation kind. |
| `InputEngine.InputBuffer.constructor` | src/hooks/useInputBuffer.ts:6-7 | The buffer and the token list both start empty, and the invariant holds. |
| `InputEngine.InputBuffer.HandleKeyDown` | src/hooks/useInputBuffer.ts:9-113 | Each branch of the handler: new buffer, new token list, and the exact ordered cues and speech. Backspace drops the last letter, else the last token, else plays the error cue. A digit with an empty buffer plays only the error cue. Digits 0-4 commit a pinyin token (raw = buffer, content = buffer + digit, tone = digit), clear the buffer, and confirm then speak in zh-CN. Digits 5-9 commit an English token (content = buffer + " ", no tone) and speak the buffer in en-US. Alt+r, Alt+l and Alt+s change nothing. Alt+r and Alt+s speak. Alt+l speaks the last token's content, or plays the error cue when there are no tokens. A letter without Ctrl/Meta/Alt is appended in lower case with the type cue. Every other event changes nothing and emits nothing. Tokens only grow by one at the end or lose the last one. The invariant is preserved. |
| `InputEngine.CommitPinyinScenario` | src/hooks/useInputBuffer.ts:40-54 | Typing `h`, `a`, `O`, `3` on a fresh buffer leaves the buffer empty and one token {id "42", content "hao3", raw "hao", pinyin, tone 3}. The last key plays the confirm cue, then speaks "hao3" in zh-CN. |
| `InputEngine.CommitAndEraseScenario` | src/hooks/useInputBuffer.ts:15-68 | `h`, `i`, `7` commits the English token "hi ". Backspace then removes it. A second Backspace on the empty state plays only the error cue. |

## Left out

- src/services/audio.ts is not part of this model. It drives Web Audio oscillators (float frequencies, gains, timers) and `speechSynthesis` with its voice lookup. The model stops at the effect values `Play` and `Speak`. It does not model cancelling the utterance in flight.
- src/App.tsx is not part of this model. It is React rendering, the `keydown` listener wiring and the start overlay.
- React hook mechanics are not modelled: `useState`/`useCallback` closures, the functional `setX(prev => …)` updates, and `e.preventDefault()`. One `HandleKeyDown` call is one sequential step over the two fields.
- `HandleKeyDown`: the token id is the decimal form of a `now` parameter that stands for `Date.now()`. The clock is not modelled, and ids are not claimed unique.
- `IsEloquence`, `ToLower`: `toLowerCase` is modelled on ASCII only. No non-ASCII character lower-cases to a letter of "eloquence", so the outcome of the Eloquence test is unaffected.
- `FormatTTSContent`: the tone is an integer. A JavaScript number that is not a whole number (a fraction, NaN) is not modelled. Neither is the exponent notation JavaScript uses for numbers of 10^21 and above.
- `PlaceTone`: the tone is an integer. A JavaScript `number` that is not a whole number (2.5, NaN) is not modelled. The source treats such a tone like an out-of-range one: `toneMap[c]?.[tone - 1]` is undefined (src/utils/pinyin.ts:49), so the `v`-rewritten text comes back (src/utils/pinyin.ts:55), as `ToneOutOfRange` states for integers.
- `ToneRow`: `ü` and the toned vowels are single characters. Unicode normalisation is not modelled.
- The `punctuation` token kind is declared (src/types.ts:5) but never produced. `Valid` therefore excludes it.
