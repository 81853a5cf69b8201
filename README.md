# t2k core, modelled in Dafny

t2k is a small game library for an ESP32 handheld: a 160×120 RGB332 screen shown through a 2×2 upscale, four tone channels fed from a Music Macro Language (MML) text, eight buttons, and a table of up to 256 scene functions. This project models its core and proves properties of the model.

- **Rationals** (`ints.dfy`, `rational.dfy`). Note lengths are fractions n/d packed into one 32-bit word, with high half n and low half d. Each result is reduced by a gcd computed with C's truncating remainder. Unpacking gives back the pair, and every sum, difference and product is the reduced form of the exact pair the code computes.
- **MML parsers** (`mml_text.dfy`, `mml_length.dfy`). The character readers take a text and an index and return the next index, or a failure. They cover white space, integers and numbers, length codes, modifiers, terms and sums, strength, octave, transposition, tempo and values. Reading past the text yields `'\0'`, as the C string does.
- **MML commands** (`mml_command.dfy`). `parseMmlCommand` is a state machine on one channel. It handles tempo, octave, transposition, default length, strength, the repeat mark, notes and rests, and it yields the tone a note sounds.
- **Check and the scheduler** (`mml_check.dfy`, `mml_engine.dfy`):
  - `checkMML` runs the parser over a whole text. Since some texts make it loop for ever, the model returns a verdict (returns, diverges or crashes) rather than assuming it ends.
  - `registerMML` and `t2kUpdateMML` pump commands into each channel's tone queue. When a queue is full they rewind the cursor to the command that did not fit, restart at the repeat point and stop at the end of the text.
- **Tone queues** (`sound_core.dfy`). Each channel has a bounded FIFO of 32 packets. The class tracks the per-channel tone state, the quiet flag, the master volumes and the 32-sample output buffer.
- **Frame buffers and drawing** (`gcore.dfy`, `graphics.dfy`, `font.dfy`, `sprite.dfy`):
  - the two 19200-byte frame buffers;
  - the RGB332 to byte-swapped RGB565 conversion and the 2×2 upscale of `flip`;
  - clipped rectangles and Bresenham lines;
  - 8×8 glyphs;
  - sprite pattern decoding and clipped, transparent sprite blits.

  Each drawing method writes an `array` in place. Its contract says that the new buffer is the old one with a list of dots plotted, and lemmas state which colour each pixel ends up with.
- **Buttons** (`input.dfy`). Buttons are active low: a bit of the keyboard byte, a custom board or a card keyboard is pressed when clear, and newly pressed on an edge from set to clear. The native buttons A, B and C are plain flags that the source never sets, so they stay released.
- **Scenes** (`scene.dfy`). The 256-entry dispatch table, the scene IDs, and the loop that adds scenes up to a NULL function.

Hardware reads become parameters: the button byte of the I2C keyboard. The source never writes the native button status, so the model keeps the native buttons released. Results that hardware would consume are returned: the LCD strips of `flip`, the 32-sample chunk, and the scene function to call.

## Model

| member | source | states |
|---|---|---|
| Ints.ToInt16 | src/base/mml/t2kMML.cpp:87-88 | the `(int16_t)` cast: an int16 already in range is unchanged |
| Ints.ToInt16Congruent | src/base/mml/t2kMML.cpp:87-88 | the cast keeps the value modulo 2^16 |
| Ints.ToUint16 | src/base/mml/t2kMML.cpp:68 | the `(uint16_t)` cast: congruent modulo 2^16, identity on [0, 65536) |
| Ints.ToUint8 | src/base/sprite/t2kSprite.cpp:44-45 | the `uint8_t` field store: congruent modulo 2^8, identity on [0, 256) |
| Ints.NatDivMod | src/base/mml/t2kMML.cpp:82 | quotient times divisor plus remainder gives back the dividend |
| Ints.TruncDiv | src/base/mml/t2kMML.cpp:106 | C's `/` on ints (`x/t` in `add`): it rounds toward zero, so a nonzero quotient is negative exactly when the operands have opposite signs, and a dividend smaller than the divisor in magnitude gives 0; `TruncDivMod` recomposes the dividend |
| Ints.TruncDivSymmetric | src/base/mml/t2kMML.cpp:106 | C's `/` rounds toward zero: negating either operand negates the quotient, and -7 / 2 is -3 |
| Ints.TruncMod | src/base/mml/t2kMML.cpp:82 | C's `%`: smaller in magnitude than the divisor, with the sign of the dividend |
| Ints.TruncDivMod | src/base/mml/t2kMML.cpp:82-106 | C's `/` and `%` recompose the dividend |
| Ints.TruncReal | src/base/mml/t2kMML.cpp:595-596 | a float-to-int conversion truncates toward zero |
| Rational.Pack | src/base/mml/t2kMML.cpp:67-69 | `MakeRational`: the high half is the numerator's uint16 pattern, the low half the denominator's |
| Rational.UnpackPack | src/base/mml/t2kMML.cpp:67-88 | unpacking through `>>16` and `&0xFFFF` returns exactly the packed int16 pair |
| Rational.PackUnpack | src/base/mml/t2kMML.cpp:67-88 | every 32-bit word is the packing of its unpacked halves |
| Rational.Int16OfUint16 | src/base/mml/t2kMML.cpp:68-87 | an int16 survives the round trip through its uint16 pattern |
| Rational.Uint16OfInt16 | src/base/mml/t2kMML.cpp:68-87 | a uint16 pattern survives the round trip through int16 |
| Rational.Euclid | src/base/mml/t2kMML.cpp:80-83 | the remainder loop with C's `%` on a nonzero pair never yields 0 |
| Rational.EuclidDivides | src/base/mml/t2kMML.cpp:80-83 | the loop's result divides both operands |
| Rational.EuclidGreatest | src/base/mml/t2kMML.cpp:80-83 | every common divisor divides the loop's result |
| Rational.Gcd | src/base/mml/t2kMML.cpp:74-84 | `gcd` is 0 exactly for the pair (0, 0) |
| Rational.GcdDivides | src/base/mml/t2kMML.cpp:74-84 | `gcd(a, b)` divides a and b |
| Rational.GcdGreatest | src/base/mml/t2kMML.cpp:74-84 | every common divisor of a and b divides `gcd(a, b)` |
| Rational.GcdLoop | src/base/mml/t2kMML.cpp:74-84 | the source's loop computes the recursive `Gcd` |
| Rational.ExactTruncDiv | src/base/mml/t2kMML.cpp:106 | C's `/` on an exact multiple gives the factor |
| Rational.Reduce | src/base/mml/t2kMML.cpp:105-106 | the reduction traps (divides by zero) exactly when both parts are 0 |
| Rational.ReduceParts | src/base/mml/t2kMML.cpp:105-106 | the reduced parts times the gcd give back the unreduced pair |
| Rational.ReduceExact | src/base/mml/t2kMML.cpp:105-106 | each part divided by the gcd is exact and fits int16 |
| Rational.ExactFactor | src/base/mml/t2kMML.cpp:106 | the exact quotient of a part keeps it in range |
| Rational.ReduceInLowestTerms | src/base/mml/t2kMML.cpp:105-106 | a reduced fraction has only 1 and -1 as common divisors |
| Rational.ReduceValue | src/base/mml/t2kMML.cpp:148-153 | reduction keeps the value x/y and a nonzero denominator |
| Rational.ReduceOverOne | src/base/mml/t2kMML.cpp:105-106 | x/1 is already reduced |
| Rational.ReduceOneOver | src/base/mml/t2kMML.cpp:105-106 | 1/y with y > 0 is already reduced |
| Rational.Add | src/base/mml/t2kMML.cpp:85-107 | `add`: the numerators summed over a shared denominator, or the cross sum over the product of the denominators, each part wrapped to int16, then reduced by their gcd; it traps exactly when both unreduced parts are 0 (the gcd is 0); its exact value is in `AddValue` |
| Rational.Sub | src/base/mml/t2kMML.cpp:108-130 | `sub`: the same with the second numerator subtracted; it traps exactly when both unreduced parts are 0; its exact value is in `SubValue` |
| Rational.MulR | src/base/mml/t2kMML.cpp:131-147 | `mul`: numerators and denominators multiplied, each wrapped to int16, then reduced; it traps exactly when both wrapped products are 0; its exact value is in `MulValue` |
| Rational.AddTraps | src/base/mml/t2kMML.cpp:85-107 | `add` divides by a zero gcd exactly when its unreduced sum is 0/0, so a common nonzero denominator never traps |
| Rational.SubTraps | src/base/mml/t2kMML.cpp:108-130 | `sub` divides by a zero gcd exactly when its unreduced difference is 0/0 |
| Rational.MulTraps | src/base/mml/t2kMML.cpp:131-147 | `mul` divides by a zero gcd exactly when both wrapped products are 0, as for 256/256 times itself |
| Rational.AddValue | src/base/mml/t2kMML.cpp:85-107 | without int16 overflow, `add` (same-denominator shortcut or cross multiplication) denotes the sum |
| Rational.SubValue | src/base/mml/t2kMML.cpp:108-130 | without int16 overflow, `sub` denotes the difference |
| Rational.MulValue | src/base/mml/t2kMML.cpp:131-147 | without int16 overflow, `mul` denotes the product |
| MmlText.StrLen | src/base/mml/t2kMML.cpp:271-295 | `strlen`: the index of the first NUL, every character before it non-NUL |
| MmlText.IsWhiteSpace | src/base/mml/t2kMML.cpp:1361-1363 | `isWhiteSpace`: space, tab, line feed and carriage return, all control characters or space and none of them NUL |
| MmlText.IsNoteCommand | src/base/mml/t2kMML.cpp:1364-1366 | `isNoteCommand`: the letters A to G in either case, so the letter lies 0 to 6 places after 'A' modulo the 0x20 between the cases |
| MmlText.IsMmlCommand | src/base/mml/t2kMML.cpp:1367-1382 | `isMmlCommand`: the note letters and the command characters, every one of them a printable ASCII character |
| MmlText.CommandNotBlank | src/base/mml/t2kMML.cpp:1364-1382 | no command starts with the terminator, white space or a digit, and every note letter starts one |
| MmlText.At | src/base/mml/t2kMML.cpp:578 | a read `mmlStr[i]` of the text: a character other than NUL is read only inside the text, and it is the character at i |
| MmlText.AtTerminator | src/base/mml/t2kMML.cpp:271-295 | every index before `strlen` holds a character, the index `strlen` holds the terminator, and so does every index outside the text |
| MmlText.SkipWs | src/base/mml/t2kMML.cpp:1383-1389 | the skip stops at the first non-white character before the length, never moves back and never passes the length |
| MmlText.SkipWsSkipsSpaces | src/base/mml/t2kMML.cpp:1383-1389 | every character skipped is white space |
| MmlText.SkipWhiteSpace | src/base/mml/t2kMML.cpp:1383-1389 | the source's loop returns `SkipWs` |
| MmlText.SkipWsIdempotent | src/base/mml/t2kMML.cpp:1383-1389 | skipping white space twice skips nothing more |
| MmlText.DigitsEnd | src/base/mml/t2kMML.cpp:1354-1357 | the end of the maximal digit run: digits before it, a non-digit at it |
| MmlText.ReadInteger | src/base/mml/t2kMML.cpp:1350-1360 | `checkInteger` never fails: it returns the end of the digit run, so an empty run reads 0 without moving |
| MmlText.CheckInteger | src/base/mml/t2kMML.cpp:1350-1360 | the source's loop returns `ReadInteger` |
| MmlText.ReadSingleDigit | src/base/mml/t2kMML.cpp:1350-1360 | a one-digit run reads as that digit and advances by one |
| MmlText.ReadNumber | src/base/mml/t2kMML.cpp:1331-1349 | `checkNumber` never moves back |
| MmlText.CheckNumber | src/base/mml/t2kMML.cpp:1331-1349 | the source's two loops return `ReadNumber` |
| MmlText.FractionDigits | src/base/mml/t2kMML.cpp:1339-1346 | the fraction loop stops at the end of the digit run with the fraction `Fraction` reads |
| MmlText.FractionStep | src/base/mml/t2kMML.cpp:1341-1345 | each further digit is weighted by the next power of 1/10 |
| MmlText.FractionBounds | src/base/mml/t2kMML.cpp:1339-1346 | the fractional part lies in [0, 1 - 10^-k) after k digits |
| MmlText.ReadNumberInteger | src/base/mml/t2kMML.cpp:1331-1349 | a number without a point reads as its integer |
| MmlLength.LengthNumberCodes | src/base/mml/t2kMML.cpp:1064-1203 | `checkNoteLengthNumber` succeeds exactly when the maximal digit run is one of 1 2 3 4 6 8 9 12 16 24 32 48 64 96; it then ends at the end of the run and yields 1/n |
| MmlLength.OneDigitCode | src/base/mml/t2kMML.cpp:1064-1203 | the one-digit case of that characterisation |
| MmlLength.TwoDigitCode | src/base/mml/t2kMML.cpp:1064-1203 | the two-digit case of that characterisation |
| MmlLength.LongCode | src/base/mml/t2kMML.cpp:1064-1203 | a run of three or more digits is rejected |
| MmlLength.RunEnd | src/base/mml/t2kMML.cpp:1226-1232 | the end of a run of one character: that character before it and not at it |
| MmlLength.Pow2 | src/base/mml/t2kMML.cpp:1226-1232 | the doubling counter is at least 1 |
| MmlLength.ModifierAt | src/base/mml/t2kMML.cpp:1212-1238 | a modifier always advances the index, within the string |
| MmlLength.Modifiers | src/base/mml/t2kMML.cpp:1204-1245 | `checkNoteLengthModifierFactor` never fails and never moves back |
| MmlLength.CountRun | src/base/mml/t2kMML.cpp:1226-1234 | the inner loops end at the end of the run with 2 to the power of its length |
| MmlLength.ReadModifier | src/base/mml/t2kMML.cpp:1212-1238 | the loop body's branches read the modifier `ModifierAt` describes |
| MmlLength.ModifierFactor | src/base/mml/t2kMML.cpp:1204-1245 | the source's loop computes `Modifiers` from 1/1 |
| MmlLength.MulOneByPower | src/base/mml/t2kMML.cpp:1209-1235 | 1/1 times 2^k/1 or 1/2^k is that fraction, for k up to 14 |
| MmlLength.UnderscoreRun | src/base/mml/t2kMML.cpp:1224-1229 | k underscores alone give the factor 2^k and stop after the run |
| MmlLength.SlashRun | src/base/mml/t2kMML.cpp:1230-1235 | k slashes alone give the factor 1/2^k and stop after the run |
| MmlLength.RunEndAt | src/base/mml/t2kMML.cpp:1226-1232 | a run of exactly k characters ends k places on |
| MmlLength.SingleDotEndsRun | src/base/mml/t2kMML.cpp:1213-1218 | a single '.' multiplies the value by 3/2 and ends the run, whatever follows |
| MmlLength.DoubleDotContinues | src/base/mml/t2kMML.cpp:1219-1222 | '..' multiplies the value by 7/4 and the run goes on after it |
| MmlLength.UnderscoresContinue | src/base/mml/t2kMML.cpp:1224-1229 | k underscores multiply the value by 2^k and the run goes on |
| MmlLength.SlashesContinue | src/base/mml/t2kMML.cpp:1230-1235 | k slashes divide the value by 2^k and the run goes on |
| MmlLength.ContinueRun | src/base/mml/t2kMML.cpp:1211-1239 | after a modifier that does not end the run, the rest of the run multiplies the product so far |
| MmlLength.ScaleUp | src/base/mml/t2kMML.cpp:1229 | multiplying by n/1 multiplies the value by n |
| MmlLength.ScaleDown | src/base/mml/t2kMML.cpp:1235 | multiplying by 1/n divides the value by n |
| MmlLength.LengthTerm | src/base/mml/t2kMML.cpp:1037-1063 | `checkNoteLengthTerm` never moves back; what the term denotes is stated by `LengthTermValue` |
| MmlLength.TermNumberValue | src/base/mml/t2kMML.cpp:1039-1049 | a term starts with the default length when no digit follows, and otherwise with 1/n for the length code n that ends where its digit run ends |
| MmlLength.LengthTermValue | src/base/mml/t2kMML.cpp:1037-1063 | a term that is read starts with the default length when no digit follows, and otherwise with exactly 1/n for the length code n (one of 1 2 3 4 6 8 9 12 16 24 32 48 64 96) spelt by the digit run, which it reads to its end; with no '.', '/' or '_' after that, the term is that start, ending after the blanks; with one, the term ends where the modifier run ends and, when the product fits in int16, its value is exactly the start's value times the run's factor from 1/1 |
| MmlLength.ThenProductValue | src/base/mml/t2kMML.cpp:1060-1062 | when that `mul` does not overflow int16, the term's value is exactly the starting length times the factor |
| MmlLength.NoteLength | src/base/mml/t2kMML.cpp:996-1036 | `checkNoteLength` never moves back; its value is stated by `NoteLengthValue` |
| MmlLength.NoteLengthValue | src/base/mml/t2kMML.cpp:996-1036 | without a length expression the note length is the default; otherwise, when nothing overflows int16, its value is the first term's value plus each later term after '+' and minus each after '-' (`ExactSum`) |
| MmlLength.SumTurn | src/base/mml/t2kMML.cpp:1015-1035 | a turn of the sum loop that goes on moves forward |
| MmlLength.SignedTurn | src/base/mml/t2kMML.cpp:1017-1030 | after a '+' or '-', a turn that goes on, or ends with a result, has moved past the sign |
| MmlLength.LengthSum | src/base/mml/t2kMML.cpp:1015-1035 | the sum loop never moves back; its value is stated by `LengthSumValue` |
| MmlLength.LengthSumValue | src/base/mml/t2kMML.cpp:1015-1035 | when no addition or subtraction overflows int16 (`SumFits`), the sum loop's length has a nonzero denominator and the exact signed sum of its terms as value |
| MmlLength.TurnEndsValue | src/base/mml/t2kMML.cpp:1015-1034 | a loop turn that ends with a length ends with the accumulator unchanged, which is then the whole exact sum |
| MmlLength.TurnGoesOnValue | src/base/mml/t2kMML.cpp:1017-1030 | a turn that goes on moves the accumulator's value by exactly the term it read, as the exact sum does, and the rest still fits |
| MmlLength.ExactSumStep | src/base/mml/t2kMML.cpp:1017-1030 | after a sign the exact sum adds or subtracts the term read after it |
| MmlLength.SignedTurnMeaning | src/base/mml/t2kMML.cpp:1017-1030 | a turn after a sign goes on exactly when its term is read and `add`/`sub` does not trap, from the term's end with that sum; otherwise it ends without a length |
| MmlLength.SumUnfolds | src/base/mml/t2kMML.cpp:1015-1035 | the sum is decided by its first turn: it ends there or continues from the turn's index and accumulator |
| MmlLength.CheckNoteLength | src/base/mml/t2kMML.cpp:996-1036 | the source's loop computes `NoteLength` |
| MmlLength.SumStep | src/base/mml/t2kMML.cpp:1016-1034 | one turn of the loop is `SumTurn` |
| MmlLength.SignedStep | src/base/mml/t2kMML.cpp:1017-1030 | the term after the sign and the sum it gives are `SignedTurn` |
| MmlLength.EmptyLengthIsDefault | src/base/mml/t2kMML.cpp:1001-1006 | an empty length expression yields the default length unchanged, after the white space |
| MmlCommand.InitialState | src/base/mml/t2kMML.cpp:417-427 | `initMmlState`: key, octave and strength in range, octave index that of `O4`, no initial tempo yet |
| MmlCommand.InitChannel | src/base/mml/t2kMML.cpp:407-416 | `initMML`: a live channel at index 0 with no repeat point |
| MmlCommand.GetNoteOffset | src/base/mml/t2kMML.cpp:947-995 | `getNoteOffset`: a note letter's natural semitone moved by at most one by the key, exactly natural in C major, -1 for any other character |
| MmlCommand.KeyRow | src/base/mml/t2kMML.cpp:947-966 | each row of the key table has the seven notes A to G |
| MmlCommand.KeySignatureCount | src/base/mml/t2kMML.cpp:947-964 | the key with t sharps or flats alters exactly \|t\| notes |
| MmlCommand.KeySignatures | src/base/mml/t2kMML.cpp:947-964 | sharp keys raise by 0 or 1, flat keys lower by 0 or 1, and each key alters at least the notes of the one before |
| MmlCommand.TranspositionAt | src/base/mml/t2kMML.cpp:865-926 | `checkMusicalTransposition` yields a key in [-7, 7] and fails exactly when neither '=' nor a sign follows, or the integer after the sign exceeds 7 |
| MmlCommand.BaseStrengthAt | src/base/mml/t2kMML.cpp:928-944 | `checkBaseStrength` never moves back and yields a strength in [0, 128] |
| MmlCommand.OctaveIndex | src/base/mml/t2kMML.cpp:1292-1294 | the octave is clamped, never wrapped: 12n - 9 for n up to 8, 87 above, always a C in [-9, 87] |
| MmlCommand.OctaveAt | src/base/mml/t2kMML.cpp:1280-1297 | `checkOctaveCommand` never moves back |
| MmlCommand.RationalAt | src/base/mml/t2kMML.cpp:1316-1330 | `checkRational` succeeds only past a '/' and then moves forward |
| MmlCommand.RationalValue | src/base/mml/t2kMML.cpp:148-153 | `getRationalValue`: a/b, so the value times the denominator gives the numerator; a zero denominator (NaN in the source) gives 0 |
| MmlCommand.TempoAt | src/base/mml/t2kMML.cpp:1299-1314 | `checkTempoValue` never moves back |
| MmlCommand.NoteStrengthAt | src/base/mml/t2kMML.cpp:1246-1278 | `checkNoteStrength` never moves back |
| MmlCommand.Accidentals | src/base/mml/t2kMML.cpp:816-823 | the sign loop stops at the first character that is not the sign |
| MmlCommand.CountAccidentals | src/base/mml/t2kMML.cpp:816-823 | the source's sign loop computes `Accidentals` |
| MmlCommand.AccidentalsCount | src/base/mml/t2kMML.cpp:816-823 | a sign run holds only the sign and white space, and the shift counts the signs in it |
| MmlCommand.WhiteSpaceOccurrences | src/base/mml/t2kMML.cpp:817 | skipped white space adds no sign |
| MmlCommand.Signs | src/base/mml/t2kMML.cpp:814-827 | the signs or '=' after a note: a natural has no sign shift |
| MmlCommand.RingAt | src/base/mml/t2kMML.cpp:832-838 | the '*' ring scale never moves back |
| MmlCommand.StrengthSuffix | src/base/mml/t2kMML.cpp:840-849 | the ':' strength or accent never moves back |
| MmlCommand.NoteArgsAt | src/base/mml/t2kMML.cpp:802-864 | `checkNoteCommand` fails or traps exactly when its note length does |
| MmlCommand.OctaveShift | src/base/mml/t2kMML.cpp:551-559 | '^' or 'v' after the letter consumes one character or none |
| MmlCommand.VolumeOf | src/base/mml/t2kMML.cpp:596 | `(uint8_t)(strength/127.0*255)`: over strengths 0-127 the volume v is strength · 255 / 127 rounded down, that is v · 127 ≤ strength · 255 < (v + 1) · 127 |
| MmlCommand.VolumeOfScaled | src/base/mml/t2kMML.cpp:596 | over strengths 0-127 the volume is strength · 255 / 127 rounded down |
| MmlCommand.VolumeScale | src/base/mml/t2kMML.cpp:596 | the volume grows with the strength, from 0 at strength 0 to 255 at 127 |
| MmlCommand.DurationOf | src/base/mml/t2kMML.cpp:595 | `durationMSec` stored in an int16: 0 for a zero denominator or tempo (NaN or infinity in the source) and for a zero length; the milliseconds of any other length in `DurationMeaning` |
| MmlCommand.DurationMeaning | src/base/mml/t2kMML.cpp:595 | a length of x whole notes at tempo t gives x · 240000 / t ms truncated and wrapped to int16, and just the truncated time when that fits an int16 |
| MmlCommand.QuarterDuration | src/base/mml/t2kMML.cpp:595 | at any tempo t of 2 or more a quarter note lasts 60000 / t ms truncated to a whole millisecond; at tempo 120, 500 ms |
| MmlCommand.Quot | src/base/mml/t2kMML.cpp:666 | the float division of `tempo/=tempoScale`: the quotient times a nonzero divisor gives the dividend back, and a zero divisor (infinity in the source) gives 0 |
| MmlCommand.QuotientAtMost | src/base/mml/t2kMML.cpp:595 | a quotient a / t with 0 ≤ a ≤ c · t and t > 0 lies in [0, c] |
| MmlCommand.TempoCommand | src/base/mml/t2kMML.cpp:640-680 | `@M` changes only the tempo and the initial tempo |
| MmlCommand.BeatAt | src/base/mml/t2kMML.cpp:620-639 | `@T` accepts only the denominators 4 and 8 |
| MmlCommand.Comment | src/base/mml/t2kMML.cpp:696 | '%' makes the rest of the text a comment and plays nothing |
| MmlCommand.Tie | src/base/mml/t2kMML.cpp:697-698 | '&' is skipped and plays nothing |
| MmlCommand.OctaveCommand | src/base/mml/t2kMML.cpp:699-709 | 'O' sets the octave, keeps the state invariant and plays nothing |
| MmlCommand.OctaveStep | src/base/mml/t2kMML.cpp:710-729 | '<' and '>' keep the octave in [-9, 87] and play nothing |
| MmlCommand.DefaultLengthCommand | src/base/mml/t2kMML.cpp:730-741 | 'L' plays nothing and leaves a failed channel as it was |
| MmlCommand.StrengthCommand | src/base/mml/t2kMML.cpp:742-752 | 'V' sets the base strength and plays nothing |
| MmlCommand.FrequencyCommand | src/base/mml/t2kMML.cpp:755-765 | 'N' always outputs a tone |
| MmlCommand.TempoSet | src/base/mml/t2kMML.cpp:766-780 | 'T' sets the tempo and plays nothing |
| MmlCommand.RepeatCommand | src/base/mml/t2kMML.cpp:781-788 | '$' advances one character and records the index after it only when repeats are supported |
| MmlCommand.TranspositionCommand | src/base/mml/t2kMML.cpp:611-619 | '@K' keeps the key in [-7, 7] and plays nothing |
| MmlCommand.BeatCommand | src/base/mml/t2kMML.cpp:620-639 | '@T' plays nothing and leaves a failed channel as it was |
| MmlCommand.TempoChange | src/base/mml/t2kMML.cpp:640-680 | '@M' plays nothing |
| MmlCommand.AtCommand | src/base/mml/t2kMML.cpp:607-692 | the '@' commands never record a repeat point; an unknown one succeeds without moving |
| MmlCommand.PlainCommand | src/base/mml/t2kMML.cpp:693-790 | the other commands never move back; one that does not move is '\|' or '!' and changes nothing |
| MmlCommand.OctaveUp | src/base/mml/t2kMML.cpp:710-719 | '<' adds 12, clamped to at most 87 |
| MmlCommand.OctaveDown | src/base/mml/t2kMML.cpp:720-729 | '>' subtracts 12, clamped to at least -9 |
| MmlCommand.SoundNote | src/base/mml/t2kMML.cpp:575-596 | a note either outputs a tone and moves on or fails with the cursor and repeat point unchanged |
| MmlCommand.NoteCommand | src/base/mml/t2kMML.cpp:537-606 | a note or rest outputs a tone and moves forward, or fails with the cursor unchanged |
| MmlCommand.Step | src/base/mml/t2kMML.cpp:509-800 | `parseMmlCommand`: keeps the state invariant; a failure keeps the cursor; without repeat support the repeat point is untouched; "no command" only at the end; a command that does not move changes nothing |
| MmlCommand.PitchIndex | src/base/mml/t2kMML.cpp:581-585 | `freqIndex`: 88 for a rest whatever the octave and signs, and otherwise the octave index plus the octave shift, the key-adjusted offset and the signs |
| MmlCommand.PitchIndexOctave | src/base/mml/t2kMML.cpp:581-586 | a rest has entry 88 whatever the octave and signs; a note one octave up has the index 12 entries further |
| MmlCommand.NotePitch | src/base/mml/t2kMML.cpp:575-596 | a note's table index is octave + '^'/'v' shift + sign count + key-adjusted offset (natural after '='); it sounds exactly when the index is in [0, 89), with that entry, the duration and the volume |
| MmlCommand.RestIsLastEntry | src/base/mml/t2kMML.cpp:540-586 | in the corrected dialect a rest always sounds entry 88 |
| MmlCommand.RestNaturalAsWritten | src/base/mml/t2kMML.cpp:575-586 | as written, "R=" sounds the pitched entry a semitone below the octave's C |
| MmlCommand.RepeatMark | src/base/mml/t2kMML.cpp:781-788 | '$' records the index just after it as the repeat point, and only with repeat support |
| MmlCommand.TempoResetRestoresFirst | src/base/mml/t2kMML.cpp:645-675 | after a first tempo and any scaling, '@M=' restores that first tempo |
| MmlCommand.BaseStrengthClamp | src/base/mml/t2kMML.cpp:928-944 | on any digit run, with or without a ':' before it, `checkBaseStrength` ends after the digits and yields their value when it is at most 128, and 127 for any larger value |
| MmlCheck.Run | src/base/mml/t2kMML.cpp:482-508 | the loop of `checkMML`: at the end of the text it returns whether a command was seen; a run that spins is stuck on a command that does not move, with the text and repeat point untouched |
| MmlCheck.CheckMml | src/base/mml/t2kMML.cpp:482-508 | the source's loop over a fresh channel, without repeat support, computes `Run` |
| MmlCheck.T2kCheckMml | src/base/mml/t2kMML.cpp:270-285 | `t2kCheckMML`: false for NULL and for the empty string, else `checkMML` of the text up to its NUL |
| MmlCheck.TrueNeedsCommand | src/base/mml/t2kMML.cpp:495-507 | true without a command seen before needs a non-white character ahead |
| MmlCheck.SkipWsAllWhite | src/base/mml/t2kMML.cpp:1383-1389 | white space to the end is skipped to the end |
| MmlCheck.WhiteSpaceText | src/base/mml/t2kMML.cpp:495-523 | a text of only white space: as written the loop never ends; corrected, it returns false |
| MmlCheck.TrailingSpace | src/base/mml/t2kMML.cpp:495-523 | "O4 ": as written the loop never ends; corrected, it returns true |
| MmlEngine.AfterRing | src/base/mml/t2kMML.cpp:369-460 | the ring scale is clipped at 1; only the pending rest changes, silence gives 0 and a full ring none |
| MmlEngine.Deliver | src/base/mml/t2kMML.cpp:363-466 | a command's outcome offered to the queue: a tone is queued only with room; backpressure restores the cursor and cancels the rest; a failure keeps the cursor; the playing flags are untouched |
| MmlEngine.DeliverDone | src/base/mml/t2kMML.cpp:369-466 | the same for a command that succeeded: it moved on or was rewound |
| MmlEngine.Interpretation | src/base/mml/t2kMML.cpp:356-383 | one command of a playing channel has the properties of `Deliver` |
| MmlEngine.ToneKeepsState | src/base/mml/t2kMML.cpp:575-596 | a command with a tone changes only the cursor and the length total |
| MmlEngine.Enqueued | src/base/mml/t2kMML.cpp:375-462 | a tone is appended to its own channel's queue only |
| MmlEngine.RewindRestores | src/base/mml/t2kMML.cpp:356-465 | backpressure: the cursor is restored, the rest cancelled, nothing is queued, and with room the same command goes through |
| MmlEngine.ResumeAfterMark | src/base/mml/t2kMML.cpp:473-476 | at the end of the text a channel that read '$' starts again just after it |
| MmlEngine.Resume | src/base/mml/t2kMML.cpp:337-346 | at the end of its text a channel stays alive exactly when it has a repeat point; before the end nothing changes; the text, state and repeat point are kept |
| MmlEngine.ResumeStops | src/base/mml/t2kMML.cpp:337-346 | at the end of the text a channel stops exactly when it has no repeat point, else it resumes there |
| MmlEngine.Queued | src/base/mml/t2kMML.cpp:375-381 | a queue after a tone is offered: it keeps its old packets as a prefix and grows by exactly one packet when there is a tone |
| MmlEngine.AdvanceOn | src/base/mml/t2kMML.cpp:441-466 | a pending rest that does not fit ends the round with no parse and a full queue; otherwise the channel keeps its text and playing flags, its queue only grows, and a rewind leaves the queue full |
| MmlEngine.RegisterTurn | src/base/mml/t2kMML.cpp:440-476 | one round of `registerMML`: at the end of the text it stops (with whether a command was seen) or resumes at the repeat point; a full queue stops with true, a refusal with false, a trap with `Halts`; more than 100 ms queued outside a repeat stops; the text and flags are kept and the queue only grows |
| MmlEngine.Register | src/base/mml/t2kMML.cpp:428-478 | `registerMML` for at most `fuel` rounds: the exit and the result agree (a full queue gives true, a refusal false, a trap `Halts`, running out of rounds `Unfinished`), the text and flags are kept, the queue only grows, and stopping at the end or on 100 ms reports whether a command was seen |
| MmlEngine.RegisterLeft | src/base/mml/t2kMML.cpp:440-476 | the same, with at least one round left |
| MmlEngine.RegisterFrom | src/base/mml/t2kMML.cpp:440-476 | the same, as the first round then the rest |
| MmlEngine.RegisterAll | src/base/mml/t2kMML.cpp:428-478 | `registerMML` from its start: a full queue gives true with 32 tones queued, a refusal false; the text and flags are kept, the queue only grows |
| MmlEngine.RegisterNext | src/base/mml/t2kMML.cpp:440-476 | `registerMML` is its first round, then (unless that round stopped) the rest with one round fewer |
| MmlEngine.RegisterFromNext | src/base/mml/t2kMML.cpp:440-476 | the same for `RegisterFrom` |
| MmlEngine.FeedOn | src/base/mml/t2kMML.cpp:347-383 | a channel's turn before the end of its text: the text is kept, the queue grows by one packet exactly when `again` is set, a trap changes nothing, and a queue becomes full only at 32 tones |
| MmlEngine.FeedOnCommand | src/base/mml/t2kMML.cpp:356-383 | without a pending rest, the turn is the bookkeeping `Fed` of one interpreted command |
| MmlEngine.Fed | src/base/mml/t2kMML.cpp:363-383 | after a command: the queue gets its tone, if any, and `again` says so; a refusal stops the channel; a rewind marks the queue full; a trap is reported; the total moves only with a queued packet |
| MmlEngine.ServiceOn | src/base/mml/t2kMML.cpp:334-383 | a channel's turn in a round: a stopped or not playing channel is untouched; a trap leaves only the resumed channel; the turn is `Served` |
| MmlEngine.LanesOf | src/base/mml/t2kMML.cpp:326-331 | the four lanes pair each channel with its queue, its total and its full flag |
| MmlEngine.RoomUpdate | src/core/sound/t2kSCore.cpp:163-168 | growing one queue takes as many free places as packets were added |
| MmlEngine.RoundFrom | src/base/mml/t2kMML.cpp:333-384 | a round from channel k on: the lanes stay valid, every lane grows, and a round that queued a packet took a free place |
| MmlEngine.RoundOn | src/base/mml/t2kMML.cpp:334-384 | the same, after channel k had its turn |
| MmlEngine.RoundStep | src/base/mml/t2kMML.cpp:334-384 | a round from channel k is that channel's turn, then the rest of the round unless it trapped |
| MmlEngine.UpdateFrom | src/base/mml/t2kMML.cpp:332-404 | `t2kUpdateMML` from the lanes so far: every lane grows, and without a trap it ends only when the last round queued nothing, every live channel has 100 ms queued, or every live channel's queue was found full |
| MmlEngine.UpdateOn | src/base/mml/t2kMML.cpp:385-404 | the same, after a round |
| MmlEngine.UpdateStep | src/base/mml/t2kMML.cpp:332-404 | `t2kUpdateMML` is a round, then it ends on a trap, an empty round, 100 ms everywhere or full queues everywhere, and otherwise goes on from the new lanes |
| MmlEngine.FreqEntry | src/base/mml/t2kMML.cpp:234-250 | entry 0 is 27.5 Hz and the A that starts each octave is stored exactly |
| MmlEngine.FreqStep | src/base/mml/t2kMML.cpp:246-250 | each A of the table is reset to 55 * 2^(k-1); the other entries are the one below times s |
| MmlEngine.TableStep | src/base/mml/t2kMML.cpp:246-250 | the value stored at entry i, the octave's A or the running product, is `FreqEntry` |
| MmlEngine.FreqClosedForm | src/base/mml/t2kMML.cpp:246-250 | the entry m semitones above an octave's A is that A times s^m |
| MmlEngine.PowerAdd | src/base/mml/t2kMML.cpp:246 | s^(a+b) = s^a * s^b |
| MmlEngine.PowerOctaves | src/base/mml/t2kMML.cpp:234 | with s^12 = 2, k octaves multiply by 2^k |
| MmlEngine.OctaveDoubles | src/base/mml/t2kMML.cpp:235-248 | the A of octave k is 27.5 * 2^k Hz |
| MmlEngine.GeometricAt | src/base/mml/t2kMML.cpp:234-250 | with s^12 = 2, the table is 27.5 * s^i |
| MmlEngine.FreqGeometric | src/base/mml/t2kMML.cpp:234-250 | with s^12 = 2 the octave resets change nothing |
| MmlEngine.Engine.constructor | src/base/mml/t2kMML.cpp:53-55 | every channel starts idle |
| MmlEngine.Engine.MmlInit | src/base/mml/t2kMML.cpp:232-268 | `t2kMmlInit`: entry 88 is 0, entries 0..87 follow the table recurrence, every channel is stopped |
| MmlEngine.Engine.FillTable | src/base/mml/t2kMML.cpp:233-250 | the table loop: entry 88 is 0 and every other entry is `FreqEntry` |
| MmlEngine.Engine.TableRound | src/base/mml/t2kMML.cpp:246-250 | one round stores `FreqEntry` at entry i and nothing else, and the running product moves on by s |
| MmlEngine.Engine.Interpret | src/base/mml/t2kMML.cpp:356-383 | one command of channel c is `Interpretation`; only that channel changes and only its queue grows |
| MmlEngine.Engine.SendRest | src/base/mml/t2kMML.cpp:442-448 | the pending rest is queued exactly when there is room, and then set to -1; otherwise nothing changes |
| MmlEngine.Engine.Advance | src/base/mml/t2kMML.cpp:441-466 | one round of `registerMML` before the end of the text: the parse, channel c and its queue are `AdvanceOn`; nothing else changes |
| MmlEngine.Engine.RegisterMml | src/base/mml/t2kMML.cpp:428-478 | `registerMML`: the result, channel c and its queue are `RegisterAll`; no other channel or queue changes |
| MmlEngine.Engine.RegisterRound | src/base/mml/t2kMML.cpp:440-476 | one round with rounds left: if it stops, the result, channel and queue are the registration's; otherwise the rounds left from the new state register the same |
| MmlEngine.Engine.Turn | src/base/mml/t2kMML.cpp:440-476 | one round of `registerMML` is `RegisterTurn`: its result if it stops, and the channel, queue, flag and total if it goes on; nothing else changes |
| MmlEngine.Engine.Account | src/base/mml/t2kMML.cpp:363-383 | the bookkeeping after one command is `Fed` of the command's effect: a refusal stops the channel, a rewind marks the queue full, a queued tone adds its duration to the uint16 total, a trap is reported |
| MmlEngine.Engine.Feed | src/base/mml/t2kMML.cpp:347-383 | a live channel's turn before the end of its text: channel c's lane, `again` and `halted` are `FeedOn`; nothing else changes |
| MmlEngine.Engine.FeedCommand | src/base/mml/t2kMML.cpp:356-383 | the same without a pending rest: one command interpreted and accounted for |
| MmlEngine.Engine.FeedRest | src/base/mml/t2kMML.cpp:347-351 | a pending rest is queued exactly when the queue has room; then it is reset to -1 and the total goes down by one, else nothing changes |
| MmlEngine.Engine.Service | src/base/mml/t2kMML.cpp:335-383 | a channel's turn in a round: channel c's lane, `again` and `halted` are `ServiceOn`; nothing else changes |
| MmlEngine.Engine.Buffered | src/base/mml/t2kMML.cpp:386-394 | enough exactly when every live channel has the buffering time queued |
| MmlEngine.Engine.AllFull | src/base/mml/t2kMML.cpp:396-402 | enough exactly when every live channel found its queue full |
| MmlEngine.Engine.Round | src/base/mml/t2kMML.cpp:333-384 | one round over the four channels, ending early on a trap: the lanes, `again` and `halted` are `RoundFrom` from channel 0 |
| MmlEngine.Engine.Slot | src/base/mml/t2kMML.cpp:334-383 | channel k's turn within a round: its lane becomes `ServiceOn`'s (kept on a trap), the other lanes are unchanged, and `again` records a queued packet |
| MmlEngine.Engine.UpdateMml | src/base/mml/t2kMML.cpp:324-405 | `t2kUpdateMML`: the result, every channel and every queue are `UpdateFrom` from zero totals and no full queue |
| MmlEngine.Engine.PlayMml | src/base/mml/t2kMML.cpp:287-305 | `t2kPlayMML`: false for a channel of 4 or more, changing nothing; else the channel holds the text up to its NUL and is alive, and its state and queue are exactly those `registerMML` (`RegisterAll`) leaves from a fresh channel and an empty queue, with the channel then playing and ready; other channels and queues are unchanged |
| MmlEngine.Engine.StopMml | src/base/mml/t2kMML.cpp:307-316 | `t2kStopMML`: false for a bad channel; else only that channel stops and its queue is cleared |
| MmlEngine.Engine.StopMmls | src/base/mml/t2kMML.cpp:318-322 | `t2kStopMMLs`: every channel stops, every queue is empty and the sound is quiet |
| SoundCore.Phase | src/core/sound/t2kSCore.cpp:330 | the phase step 2π · f / (2 · 8000) of a tone of f Hz: it has the sign of f and is 0 for 0 Hz; `Packet` uses it for f ≥ 0 and marks a negative f as noise with -1 |
| SoundCore.Scale | src/core/sound/t2kSCore.cpp:335 | the amplitude `volume/255*0x8000/3`: between 0 and a third of 0x8000, reached at volume 255, so three full channels stay inside the int16 range |
| SoundCore.Packet | src/core/sound/t2kSCore.cpp:319-337 | the packet `appendSeq` queues is live, carries the duration and the amplitude of the volume, and has a negative phase step (exactly -1) exactly when the frequency is negative (noise) |
| SoundCore.Load | src/core/sound/t2kSCore.cpp:252-267 | a packet taken from the queue becomes a live tone |
| SoundCore.SetTone | src/core/sound/t2kSCore.cpp:292-318 | `setToneInfo` always replaces the amplitude, leaves the tone alive exactly for a nonzero frequency, and gives it a negative phase step exactly for a negative one |
| SoundCore.PitchedToneAgrees | src/core/sound/t2kSCore.cpp:292-337 | for a positive frequency, `setToneInfo` on any current tone gives the same tone as queueing the packet and loading it |
| SoundCore.ImmediateTone | src/core/sound/t2kSCore.cpp:292-318 | for frequency 0 or below, `setToneInfo` keeps the old duration, silences on 0, makes noise on a negative frequency, and otherwise agrees with the queued packet |
| SoundCore.FlattenSnoc | src/core/sound/t2kSCore.cpp:345-357 | sending one more buffer appends its samples to those already sent |
| SoundCore.Sound.constructor | src/core/sound/t2kSCore.cpp:103-127 | after initialisation no channel sounds, every queue is empty, every master volume is 0.5, the core is quiet and the sample buffer is empty |
| SoundCore.Sound.SetMasterVolume | src/core/sound/t2kSCore.cpp:134-144 | a negative channel sets all four volumes to volume/255, a channel 0-3 sets its own only, a channel of 4 or more is refused and nothing changes |
| SoundCore.Sound.AddTone | src/core/sound/t2kSCore.cpp:158-168 | a bad channel is refused with nothing changed; otherwise the core is no longer quiet and the packet is appended exactly when the queue holds fewer than 32 tones, else the queue is unchanged |
| SoundCore.Sound.Append | src/core/sound/t2kSCore.cpp:319-337 | a non-blocking send on a queue of capacity 32: success exactly when there is room, and then the packet is at the end of that channel's queue only |
| SoundCore.Sound.Tone | src/core/sound/t2kSCore.cpp:146-156 | a bad channel is refused with nothing changed; otherwise that channel's queue is emptied, its tone becomes `SetTone` of the old one and the core is not quiet |
| SoundCore.Sound.StartToneSeq | src/core/sound/t2kSCore.cpp:170-175 | a bad channel is refused; otherwise only that channel is set alive, queues untouched |
| SoundCore.Sound.ClearToneSeq | src/core/sound/t2kSCore.cpp:177-199 | a bad channel is refused; otherwise that channel stops and its queue is emptied, and the core is quiet exactly when no channel is left alive |
| SoundCore.Sound.GetNextTone | src/core/sound/t2kSCore.cpp:252-267 | success exactly for a valid channel with a non-empty queue; then the head is removed and loaded as that channel's tone, else nothing changes |
| SoundCore.Sound.SoundWrite | src/core/sound/t2kSCore.cpp:345-357 | the sample is appended to everything written; the index advances modulo 32; a buffer is sent exactly when it fills, and it holds the last 32 samples written |
| GCore.FBA | include/t2kGCore.h:30 | the `FBA` macro, 160 · y + x: for a column inside the row, the address lies in row y's span [160 · y, 160 · (y + 1)) at offset x; divided by 160 it gives the pixel back (`FbaOnto`) |
| GCore.IsValidXY | include/t2kGCore.h:32 | a valid pixel has an address inside the 19200-byte buffer |
| GCore.InvalidIsNotValid | include/t2kGCore.h:32-33 | the two bounds macros are exact negations of each other |
| GCore.FbaInRange | include/t2kGCore.h:27-32 | for a pixel on screen the frame-buffer address lies in [0, 19200) |
| GCore.FbaInjective | include/t2kGCore.h:30-32 | two on-screen pixels with the same address are the same pixel |
| GCore.FbaOnto | include/t2kGCore.h:30-32 | every address of the buffer is the address of exactly the pixel (k mod 160, k div 160) on screen |
| GCore.RGB | include/t2kGCore.h:35-39 | red is the top three bits and blue the low two, each masked to its width |
| GCore.RgbFields | include/t2kGCore.h:35-39 | red, green and blue can be read back from an RGB332 byte, and only their masked low bits survive |
| GCore.BasicColoursDistinct | include/t2kGCore.h:41-45 | the eight named colours are eight different bytes and white is 0xFF |
| GCore.Rgb565 | src/core/graphics/t2kGCore.cpp:501-503 | red lands in bits 15-13; of bits 12-11 and 7-0 only bits 4-3 can be set, and they hold blue |
| GCore.ByteSwap | src/core/graphics/t2kGCore.cpp:504-505 | the high byte of the result is the low byte of the word and the other way round |
| GCore.ToLcd | src/core/graphics/t2kGCore.cpp:496-506 | `flip` sends 0xFFFF exactly for white |
| GCore.ByteSwapInvolutive | src/core/graphics/t2kGCore.cpp:504-505 | the byte swap for the little-endian CPU is its own inverse |
| GCore.Rgb565Fields | src/core/graphics/t2kGCore.cpp:501-503 | the widened word has red in bits 15-13, green in bits 10-8, blue in bits 4-3, and every other bit clear |
| GCore.ToLcdInjective | src/core/graphics/t2kGCore.cpp:496-506 | the conversion for the LCD loses no colour; only white is sent as 0xFFFF, which the plain conversion of 0xFF would not give |
| GCore.Plot | src/core/graphics/t2kGCore.cpp:159-162 | plotting keeps the buffer size |
| GCore.Draw | src/core/graphics/t2kGCore.cpp:159-162 | drawing a run of dots keeps the buffer size |
| GCore.ColourAtMeaning | src/core/graphics/t2kGCore.cpp:159-162 | a colour found at (x, y) is the colour of a dot of the run there, and there is no colour exactly when no dot of the run is at (x, y) |
| GCore.ColourAtSingle | src/core/graphics/t2kGCore.cpp:159-162 | one dot colours its own pixel and no other |
| GCore.DrawPixel | src/core/graphics/t2kGCore.cpp:159-162 | after a run of writes each on-screen pixel shows the colour of the last dot there, or keeps its old colour when no dot is there |
| GCore.DrawSnoc | src/core/graphics/t2kGCore.cpp:159-162 | one more dot is one more plot |
| GCore.PutDot | src/core/graphics/t2kGCore.cpp:161 | one in-range write of a drawing loop extends the drawn run by that dot |
| GCore.ColourAtAppend | src/core/graphics/t2kGCore.cpp:159-162 | after two runs a pixel has the second run's colour if the second run has a dot there, else the first run's |
| GCore.DrawAppend | src/core/graphics/t2kGCore.cpp:159-162 | drawing two runs is drawing the first and then the second |
| GCore.DrawOffScreen | src/core/graphics/t2kGCore.cpp:160 | dots that are all off screen change nothing |
| GCore.Upscaled | src/core/graphics/t2kGCore.cpp:490-513 | `flip` sends eight strips of 9600 words |
| GCore.LcdPixel | src/core/graphics/t2kGCore.cpp:490-511 | LCD pixel (X, Y) is word 320 (Y mod 30) + X of strip Y div 30 and shows the converted source pixel (X/2, Y/2): each source pixel fills a 2×2 block and all 120 rows reach the screen |
| GCore.LineWordDoubled | src/core/graphics/t2kGCore.cpp:495-508 | each source pixel fills two neighbouring words of its LCD line, with its converted colour |
| GCore.LinePair | src/core/graphics/t2kGCore.cpp:494-508 | the two LCD lines written for one source row hold, word by word, the strip words for that row |
| GCore.FrameBuffers.Buffer | src/core/graphics/t2kGCore.cpp:42 | buffer i is one of the two buffers |
| GCore.FrameBuffers.GetFramebuffer | src/core/graphics/t2kGCore.cpp:146-148 | the buffer being drawn into is the indexed one, of 19200 bytes |
| GCore.FrameBuffers.FrontBuffer | src/core/graphics/t2kGCore.cpp:155 | the buffer on screen is the other one, never the one drawn into |
| GCore.FrameBuffers.constructor | src/core/graphics/t2kGCore.cpp:125-139 | two distinct fresh buffers and a DMA buffer, drawing into buffer 0 |
| GCore.FrameBuffers.Fill | src/core/graphics/t2kGCore.cpp:150-152 | every byte of the draw buffer becomes the colour; the front buffer is unchanged |
| GCore.FrameBuffers.CopyFromFrontBuffer | src/core/graphics/t2kGCore.cpp:154-157 | the draw buffer becomes a copy of the front buffer, which is unchanged |
| GCore.FrameBuffers.PSet | src/core/graphics/t2kGCore.cpp:159-162 | the draw buffer becomes `Plot` of itself: one pixel set on screen, nothing off screen; the front buffer is unchanged |
| GCore.FrameBuffers.Flip | src/core/graphics/t2kGCore.cpp:487-516 | the strips sent are `Upscaled` of the draw buffer, and the other buffer becomes the one drawn into |
| GCore.FrameBuffers.FillStrip | src/core/graphics/t2kGCore.cpp:491-510 | after the rows of strip i every DMA word is its strip word |
| GCore.FrameBuffers.FillLinePair | src/core/graphics/t2kGCore.cpp:495-509 | one source row fills two LCD lines, each source pixel doubled across, and the words before them stay as they were |
| Graphics.ClipRect | src/base/graphics/t2kGraphics.cpp:58-63 | the clipped box of a rectangle lies on screen |
| Graphics.RowColour | src/base/graphics/t2kGraphics.cpp:66-69 | one row run colours exactly columns [l, r) of its row |
| Graphics.RowsColour | src/base/graphics/t2kGraphics.cpp:65-70 | the rows of a fill colour exactly the box [l, r) × [t, n) |
| Graphics.FillRectExact | src/base/graphics/t2kGraphics.cpp:57-71 | `t2kFillRect` colours exactly the on-screen pixels of [x, x+w) × [y, y+h); the early exits skip only rectangles with no pixel on screen |
| Graphics.FillRectPixels | src/base/graphics/t2kGraphics.cpp:57-71 | after a fill, each on-screen pixel inside the rectangle has the colour and every other pixel its old value |
| Graphics.FillRect | src/base/graphics/t2kGraphics.cpp:57-71 | the buffer after `t2kFillRect` is the old buffer with the fill's dots plotted |
| Graphics.FillSpan | src/base/graphics/t2kGraphics.cpp:66-69 | the inner loop plots columns [left, right) of one row |
| Graphics.EdgesColour | src/base/graphics/t2kGraphics.cpp:81-83 | the first loop colours exactly the top and bottom rows of the box |
| Graphics.SidesColour | src/base/graphics/t2kGraphics.cpp:84-88 | the corrected second loop colours exactly the left and right columns of the rows in between |
| Graphics.OutlineColour | src/base/graphics/t2kGraphics.cpp:81-88 | the outline dots of a non-empty box colour exactly its border |
| Graphics.DrawRectExact | src/base/graphics/t2kGraphics.cpp:73-88 | the corrected `t2kDrawRect` colours exactly the border of the visible part of the rectangle |
| Graphics.DrawRectAddressesAsWritten | src/base/graphics/t2kGraphics.cpp:73-88 | the addresses the source writes: none when the rectangle is rejected, else two per column of the clipped width and two per row strictly between the top row and row bottom - 1 |
| Graphics.EdgeAddresses | src/base/graphics/t2kGraphics.cpp:81-83 | the top/bottom loop writes two addresses per column from `left` up to n |
| Graphics.SideAddresses | src/base/graphics/t2kGraphics.cpp:84-88 | the side loop writes two addresses per row from top + 1 up to n |
| Graphics.DrawRectAsWrittenEscapes | src/base/graphics/t2kGraphics.cpp:81-87 | as written, a zero-height rectangle at the top writes address -160, and a rectangle sticking out on the left has its right side written at column inWidth - 1 (19 for x=-5, w=20) |
| Graphics.FlatRectEscapes | src/base/graphics/t2kGraphics.cpp:81-83 | for every width, a zero-height rectangle on the top row writes address -160, before the buffer |
| Graphics.LeftClippedRectEscapes | src/base/graphics/t2kGraphics.cpp:84-87 | for every rectangle cut on the left and at least three rows high, the right side is written at column inWidth - 1, beyond its last column |
| Graphics.DrawRectCorrected | src/base/graphics/t2kGraphics.cpp:73-88 | the corrected outline of the same rectangles writes nothing for the empty one and its right side at column 14, not 19 |
| Graphics.EdgesPrefix | src/base/graphics/t2kGraphics.cpp:83 | the addresses of the first loop up to column m are a prefix of those up to column n |
| Graphics.SidesPrefix | src/base/graphics/t2kGraphics.cpp:84-88 | the addresses of the second loop up to row m are a prefix of those up to row n |
| Graphics.DrawRect | src/base/graphics/t2kGraphics.cpp:73-88 | the buffer after the corrected `t2kDrawRect` is the old buffer with the outline dots plotted, and nothing changes for an empty visible part |
| Graphics.DrawEdges | src/base/graphics/t2kGraphics.cpp:81-83 | the first loop plots the top and bottom rows, column by column |
| Graphics.DrawSides | src/base/graphics/t2kGraphics.cpp:84-88 | the corrected second loop plots both sides of each row in between |
| Graphics.PutPair | src/base/graphics/t2kGraphics.cpp:81-87 | the two writes of one round of the outline loops extend the drawn run by both dots |
| Graphics.DivModUnique | src/base/graphics/t2kGraphics.cpp:41-53 | a quotient and remainder in range are the ones of Euclidean division |
| Graphics.Minor | src/base/graphics/t2kGraphics.cpp:41-49 | a line without a major extent has no minor offset |
| Graphics.ErrorTerm | src/base/graphics/t2kGraphics.cpp:41-49 | the error term of a line with a major extent b stays in [-2b, 0) |
| Graphics.MinorStep | src/base/graphics/t2kGraphics.cpp:43-44 | the error term stays in [-2b, 0); after adding 2a it reaches 0 exactly when the minor offset grows by one, and then it loses 2b |
| Graphics.MinorEnds | src/base/graphics/t2kGraphics.cpp:41-49 | the minor offset starts at 0 and ends at the minor extent, and the error term starts at minus the major extent |
| Graphics.MinorMono | src/base/graphics/t2kGraphics.cpp:43-44 | the minor offset never decreases and grows by at most one a step |
| Graphics.LineEnds | src/base/graphics/t2kGraphics.cpp:23-55 | the first dot of a line is (x1, y1) and its last is (x2, y2) |
| Graphics.LineAdvance | src/base/graphics/t2kGraphics.cpp:41-53 | one round of either loop takes the dot and error term of step i to those of step i + 1 |
| Graphics.LineNeighbours | src/base/graphics/t2kGraphics.cpp:41-53 | consecutive dots move one step along the longer axis, in the line's direction, and zero or one step along the other |
| Graphics.LineInBox | src/base/graphics/t2kGraphics.cpp:23-55 | every step of the line lies in the box spanned by its ends |
| Graphics.LineDots | src/base/graphics/t2kGraphics.cpp:41-53 | the first n steps of the line are n dots, one per step (their values are given by `LineDotsMembers` and `LineDotsHas`) |
| Graphics.LineDotsMembers | src/base/graphics/t2kGraphics.cpp:41-53 | every dot of the first n is dot i of the line for some i < n |
| Graphics.LineDotsHas | src/base/graphics/t2kGraphics.cpp:41-53 | dot i of the line is among the first n for every i < n |
| Graphics.DrawLinePixel | src/base/graphics/t2kGraphics.cpp:23-55 | after `t2kDrawLine` an on-screen pixel has the line's colour exactly when some step of the line falls on it, else its old colour |
| Graphics.DrawLine | src/base/graphics/t2kGraphics.cpp:23-55 | the buffer after `t2kDrawLine` is the old buffer with the line's dots plotted; the early return skips only lines with no dot on screen |
| Graphics.LinePlot | src/base/graphics/t2kGraphics.cpp:42-50 | the guarded write extends the plotted run by dot i, on screen or not |
| Graphics.LineXMajor | src/base/graphics/t2kGraphics.cpp:38-45 | the loop along x plots all the line's dots |
| Graphics.LineXRound | src/base/graphics/t2kGraphics.cpp:42-44 | one round along x plots dot i if on screen and moves x, y and e to dot i + 1 and its error term |
| Graphics.LineYMajor | src/base/graphics/t2kGraphics.cpp:46-53 | the loop along y plots all the line's dots |
| Graphics.LineYRound | src/base/graphics/t2kGraphics.cpp:50-52 | one round along y plots dot i if on screen and moves x, y and e to dot i + 1 and its error term |
| Font.GlyphIndex | src/base/font/t2kFont.cpp:33 | a character from ' ' to 0x7F indexes its own glyph, its offset from ' '; any other falls back to the glyph of 0x7F; the index is always below 96 |
| Font.CharPattern | src/base/font/t2kFont.cpp:34 | the pattern drawn for a character always has eight rows |
| Font.ColumnMaskShift | src/base/font/t2kFont.cpp:40-42 | the column mask of column j is 0x80 >> j, and the next column's mask is this one shifted right by one |
| Font.RowBits | src/base/font/t2kFont.cpp:42-44 | a pattern row has eight columns |
| Font.PatternBits | src/base/font/t2kFont.cpp:38-41 | a pattern has eight rows of columns |
| Font.RowDotsColour | src/base/font/t2kFont.cpp:42-46 | a drawn row colours exactly the columns whose bit is set, on its own row |
| Font.PatternRowsColour | src/base/font/t2kFont.cpp:38-47 | the first n drawn rows colour exactly the set dots of those rows |
| Font.PatternColour | src/base/font/t2kFont.cpp:77-91 | a pattern drawn at (x, y) colours exactly the pixels inside the 8×8 cell whose bit 0x80 >> column is set in their row |
| Font.PatternBitsAt | src/base/font/t2kFont.cpp:80-86 | column j of row i is set exactly when bit 0x80 >> j of the pattern's row i is |
| Font.PatternPixels | src/base/font/t2kFont.cpp:77-91 | after a pattern is drawn, an on-screen pixel has the colour where the pattern has a dot and its old value everywhere else |
| Font.RowBitsMasks | src/base/font/t2kFont.cpp:40-44 | column j of a row is set exactly when the row has bit 0x80 >> j |
| Font.SquareOutline | src/base/font/t2kFont.cpp:23-25 | without a font a character is a hollow square: inside its cell exactly the border is drawn |
| Font.SquareBits | src/base/font/t2kFont.cpp:23-25 | the rows of the square pattern: 0xFF is all columns, 0x81 only the first and the last |
| Font.CentredX | src/base/font/t2kFont.cpp:72-73 | the start column `(kGRamWidth-len*8)/2`: for a text of at most 20 characters it is on screen and leaves margins of the same width left and right |
| Font.CentredXMargins | src/base/font/t2kFont.cpp:72-73 | the centred column is 80 - 4 len; a text of at most 20 characters has equal margins on both sides, a longer one starts left of the screen |
| Font.RowDotsRow | src/base/font/t2kFont.cpp:39 | every dot of a row is on that row, so a row off screen writes nothing |
| Font.FontState.constructor | src/base/font/t2kFont.cpp:22 | no font is registered at first |
| Font.FontState.FontInit | src/base/font/t2kFont.cpp:27-30 | the font given is registered and the call succeeds |
| Font.FontState.PutChar | src/base/font/t2kFont.cpp:32-48 | the buffer after `t2kPutChar` is the old one with the dots of the character's pattern, or of the square without a font, plotted |
| Font.StrDotsStep | src/base/font/t2kFont.cpp:50-55 | one more character of the string appends its glyph's dots eight columns further on |
| Font.FontState.PutStr | src/base/font/t2kFont.cpp:50-55 | the characters before the terminator are drawn one after the other, eight columns apart from x |
| Font.FontState.Printf | src/base/font/t2kFont.cpp:58-64 | the formatted text is drawn as `t2kPutStr` draws it at (x, y) |
| Font.FontState.PrintfCentred | src/base/font/t2kFont.cpp:66-75 | the formatted text is drawn from the centred column `CentredX` of its length |
| Font.DrawFontPattern | src/base/font/t2kFont.cpp:77-91 | the buffer becomes the old one with the pattern's set dots plotted, rows and columns off screen skipped |
| Font.PatternRowsStep | src/base/font/t2kFont.cpp:80-90 | one more pattern row appends its dots one line further down |
| Font.DrawRowsStep | src/base/font/t2kFont.cpp:80-90 | drawing one more row over the rows drawn so far is drawing the rows up to and including it |
| Font.PatternRow | src/base/font/t2kFont.cpp:82-89 | one pattern row: nothing for a row off screen, else its set bits plotted left to right, columns off screen skipped |
| Sprite.DefaultPaletteBright | src/base/sprite/t2kSprite.cpp:19-36 | the global palette has 16 entries; entries 8-15 are the eight basic colours in order, and entries 0 and 8 are black |
| Sprite.ColourIndexOf | src/base/sprite/t2kSprite.cpp:84-104 | a colour letter stands for an index below 16; any other character is an error |
| Sprite.ColourLettersBijective | src/base/sprite/t2kSprite.cpp:84-100 | the letters `_brmgcywkBRMGCYW` and the indices 0-15 correspond one to one |
| Sprite.RowDecode | src/base/sprite/t2kSprite.cpp:83-107 | the decoded part of a row has at most one index per remaining column |
| Sprite.RowDecodeMeaning | src/base/sprite/t2kSprite.cpp:83-107 | a row decodes in full exactly when every letter in its w columns is a colour letter, and then into w indices, each that of its column's letter |
| Sprite.MulRowBound | src/base/sprite/t2kSprite.cpp:82 | row v of w cells ends within the w · h cells of the bitmap |
| Sprite.RowsIndex | src/base/sprite/t2kSprite.cpp:82-106 | cell u of row d of a bitmap made of a first row followed by later rows is in the first row or in the later ones at row d - 1 |
| Sprite.Decode | src/base/sprite/t2kSprite.cpp:82-109 | the rows from y decode into at most w indices per remaining row |
| Sprite.DecodeOk | src/base/sprite/t2kSprite.cpp:82-109 | the rows decode in full exactly when every letter of every row is a colour letter, and then into w indices per row |
| Sprite.DecodeCells | src/base/sprite/t2kSprite.cpp:82-108 | a bitmap that decodes in full holds at cell v · w + u the index of the letter at column u of row v |
| Sprite.HasVisibleArea | src/base/sprite/t2kSprite.cpp:164-180 | the visible area, when there is one, is the rectangle [x - centerX, x - centerX + width) × [y - centerY, y - centerY + height) |
| Sprite.VisibleAreaMeaning | src/base/sprite/t2kSprite.cpp:164-180 | without a visible area no cell of the sprite is on screen; with one, a sprite with at least one cell has a cell on screen |
| Sprite.BitmapWindow | src/base/sprite/t2kSprite.cpp:131-145 | for a rectangle as wide and tall as the bitmap, the first and last columns and rows of the window land on the screen columns and rows where the rectangle starts and ends clipped to the screen, as `startS`/`endS` and `startT`/`endT` do |
| Sprite.WindowOnScreen | src/base/sprite/t2kSprite.cpp:131-145 | the clipped window lies inside the bitmap and every cell of it lands on screen |
| Sprite.HalfVisibleWindow | src/base/sprite/t2kSprite.cpp:131-137 | an 8×8 sprite drawn four columns left of the screen has its right half visible: columns 4-8 of all rows |
| Sprite.CellIndex | src/base/sprite/t2kSprite.cpp:147-152 | the cell the blit should read for column u of row v, `bitmap[v*w+u]`; that it lies in row v's span [v · w, (v + 1) · w) inside the bitmap is `CellIndexInBitmap`, that distinct pixels get distinct cells is `CellIndexInjective` |
| Sprite.CellIndexAsWritten | src/base/sprite/t2kSprite.cpp:147-152 | for a sprite not clipped on the left the cell the source reads is the cell it draws |
| Sprite.CellIndexAsWrittenShift | src/base/sprite/t2kSprite.cpp:147-152 | the cell the source reads is startU cells right of the cell it draws |
| Sprite.CellIndexAsWrittenOverruns | src/base/sprite/t2kSprite.cpp:147-152 | for the half-visible sprite the source reads the cell four columns to the right, and cell 67 on the last row, past the 64 cells; the corrected index reads cell 63 at most |
| Sprite.CellIndexInjective | src/base/sprite/t2kSprite.cpp:147-152 | the corrected index gives distinct columns or rows of the bitmap distinct cells, and the same cell only to the same column of the same row |
| Sprite.RowsApart | src/base/sprite/t2kSprite.cpp:147-150 | a later row of w cells starts at least w cells after an earlier one |
| Sprite.CellIndexInBitmap | src/base/sprite/t2kSprite.cpp:147-152 | the corrected cell of every column and row of the window is in the bitmap, inside its own row |
| Sprite.RowRun | src/base/sprite/t2kSprite.cpp:151-159 | the inner loop of `t2kPutSprite` from column u: the dots of the cells that are not transparent, stopping with failure at the first colour index of 16 or more; it can fail only while a column is left to read (u < endU); the dot count is bounded in `RowRunBound` |
| Sprite.RowRunBound | src/base/sprite/t2kSprite.cpp:151-159 | a row of the inner loop draws at most one dot per column of its run |
| Sprite.RowRunDots | src/base/sprite/t2kSprite.cpp:151-159 | every dot of a row of the inner loop is on screen row top + v, in the columns of the run |
| Sprite.RowRunOk | src/base/sprite/t2kSprite.cpp:151-159 | a row gets to its end exactly when every cell in it holds an index below 16 |
| Sprite.RowRunColour | src/base/sprite/t2kSprite.cpp:151-159 | a complete row colours each pixel of the run with its cell's palette colour, except for the transparent index, and nothing else |
| Sprite.RowsRun | src/base/sprite/t2kSprite.cpp:149-160 | the outer loop draws at most one dot per cell of the window rows it has left |
| Sprite.RowsRunDots | src/base/sprite/t2kSprite.cpp:149-160 | every dot of the outer loop lies under the window |
| Sprite.RowsRunOk | src/base/sprite/t2kSprite.cpp:149-160 | the outer loop completes exactly when every cell under the window holds an index below 16 |
| Sprite.RowsRunColour | src/base/sprite/t2kSprite.cpp:149-160 | a complete run colours each pixel under the window with its cell's colour, and nothing else |
| Sprite.WindowIsVisiblePart | src/base/sprite/t2kSprite.cpp:131-145 | a pixel is under the window exactly when it is inside the sprite's rectangle and on screen |
| Sprite.SpriteRun | src/base/sprite/t2kSprite.cpp:133-160 | both loops of `t2kPutSprite` over the bitmap window: a window with no rows draws nothing and succeeds |
| Sprite.PutSpriteRun | src/base/sprite/t2kSprite.cpp:121-125 | a sprite with no visible area draws nothing and reports success |
| Sprite.PutSpriteRunOnScreen | src/base/sprite/t2kSprite.cpp:114-162 | `t2kPutSprite` draws only on screen and only inside the sprite's rectangle |
| Sprite.PutSpriteRunOk | src/base/sprite/t2kSprite.cpp:114-162 | drawing completes exactly when every cell that lands on screen holds an index below 16 |
| Sprite.PutSpriteColour | src/base/sprite/t2kSprite.cpp:114-162 | after a complete draw, the colour at an on-screen pixel is its cell's palette colour, or nothing for the transparent index or outside the sprite |
| Sprite.PutSpritePixel | src/base/sprite/t2kSprite.cpp:114-162 | the screen after a complete draw: a pixel under a non-transparent cell shows that index's palette colour, and every other pixel keeps its colour |
| Sprite.InitInfo | src/base/sprite/t2kSprite.cpp:44-77 | the corrected information: bitmap_needToFree exactly when the bitmap is allocated, palette_needToFree exactly when the palette is, and the sizes stored as given when they fit a byte |
| Sprite.InitInfoAsWritten | src/base/sprite/t2kSprite.cpp:44-77 | as written, bitmap_needToFree keeps its earlier value and palette_needToFree is raised by the palette allocation or by the bitmap allocation |
| Sprite.InitInfoAsWrittenMisflags | src/base/sprite/t2kSprite.cpp:66-76 | on the global palette with an allocated bitmap, the source's flags would free the global palette and leak the bitmap, while the corrected flags free the bitmap only; the two agree on everything else |
| Sprite.InitBitmap | src/base/sprite/t2kSprite.cpp:69-79 | the corrected bitmap is the caller's area when given, else the allocated one |
| Sprite.InitBitmapAsWritten | src/base/sprite/t2kSprite.cpp:69-79 | as written, the bitmap pointer is the allocated one without a caller's area and stays the earlier pointer with one |
| Sprite.InitBitmapAsWrittenIgnoresArea | src/base/sprite/t2kSprite.cpp:69-79 | on a fresh sprite given a bitmap area, the source decodes through a NULL bitmap pointer, where the corrected version uses the area |
| Sprite.OverwritesPrefix | src/base/sprite/t2kSprite.cpp:79-108 | the cells written from cell 0 are a prefix of the bitmap |
| Sprite.OverwritesAppend | src/base/sprite/t2kSprite.cpp:82-108 | writing one row right after another is one write of both |
| Sprite.DecodeRow | src/base/sprite/t2kSprite.cpp:83-107 | the inner loop writes the row's decoded indices to w cells from base and nothing else, failing exactly when `RowDecode` fails |
| Sprite.DecodeInto | src/base/sprite/t2kSprite.cpp:79-109 | both loops write the decoded rows from cell 0 and nothing else, failing exactly when `Decode` fails |
| Sprite.DecodeStep | src/base/sprite/t2kSprite.cpp:79-109 | after one more row the decoding so far and the rest agree with `Decode`; a complete row fills w cells, a bad one ends it with false |
| Sprite.Sprite.constructor | include/t2kSprite.h:20-40 | a sprite not yet initialised is invalid and has no areas |
| Sprite.SpriteLib.constructor | src/base/sprite/t2kSprite.cpp:19-36 | the global palette starts as the default 16 colours |
| Sprite.SpriteLib.SetDefault16colorPalette | src/base/sprite/t2kSprite.cpp:182-184 | the first 16 entries of the caller's palette become the global palette and the rest are unchanged |
| Sprite.SpriteLib.InitSprite | src/base/sprite/t2kSprite.cpp:38-110 | the sprite's information is `InitInfo`; its palette is the global one, the caller's, or a fresh 16-entry one; its bitmap is the caller's area or a fresh one of w · h cells; the call succeeds exactly when `Decode` does, and the decoded indices are at the start of the bitmap |
| Sprite.SizeFits | src/base/sprite/t2kSprite.cpp:45-46 | the sizes stored as bytes never cover more cells than those requested |
| Sprite.BlitRow | src/base/sprite/t2kSprite.cpp:151-159 | the inner loop draws `RowRun` of its row and fails exactly when it does |
| Sprite.BlitNextRow | src/base/sprite/t2kSprite.cpp:149-160 | one more row of the outer loop adds its row's dots to those drawn |
| Sprite.BlitRows | src/base/sprite/t2kSprite.cpp:147-161 | the outer loop draws `RowsRun` of the window and fails exactly when it does |
| Sprite.RowsRunStep | src/base/sprite/t2kSprite.cpp:147-161 | after one more row the dots so far and the rest agree with `RowsRun`; a failing row ends it with false |
| Sprite.PutSprite | src/base/sprite/t2kSprite.cpp:114-162 | false and nothing drawn without a bitmap or without any palette; otherwise, in the custom palette if given and else the sprite's own, the screen becomes the old one with `PutSpriteRun` drawn, and the result is whether it completed |
| Input.Mask | src/core/input/t2kICore.cpp:37-46 | each button's mask is a single bit |
| Input.Held | src/core/input/t2kICore.cpp:211-216 | a button is held when its bit is clear; the all-released byte 0xFF holds no button |
| Input.Edge | src/core/input/t2kICore.cpp:227-236 | an edge on one status source: the bit is clear now and was set before, so the button is held now and was not before |
| Input.MasksAreBits | src/core/input/t2kICore.cpp:37-46 | each button's mask is a single bit, different buttons have disjoint bits, and the eight masks make up 0xFF |
| Input.AnyEdgeBits | src/core/input/t2kICore.cpp:227-252 | on one status byte some button is newly pressed exactly when some bit went from 1 to 0 |
| Input.EdgeHeld | src/core/input/t2kICore.cpp:211-236 | an unchanged bit has no edge, and a button with an edge is held |
| Input.CustomIndex | src/core/input/t2kICore.cpp:128-139 | a known custom type has a slot 0-7, and any other value has none |
| Input.CustomIndexBijective | include/t2kICore.h:18-38 | the custom types and the slots of the switch correspond one to one |
| Input.CustomTypeIsBit | include/t2kICore.h:18-38 | a custom type is a single bit of a byte |
| Input.InputState.NativeIndex | src/core/input/t2kICore.cpp:197-209 | each native button has a slot 0-2 |
| Input.InputState.constructor | src/core/input/t2kICore.cpp:48-84 | all statuses start released, no custom button is used, every pin is -1 and every card keyboard value 255 |
| Input.InputState.IsPressed | src/core/input/t2kICore.cpp:218-225 | `t2kIsPressedStart` ... `Down` read the main status only; with all bits set nothing is pressed |
| Input.InputState.NowPressed | src/core/input/t2kICore.cpp:227-245 | a newly pressed button is held on some source; with no custom source registered it is exactly an edge of the main status |
| Input.InputState.NowPressedAnyButton | src/core/input/t2kICore.cpp:247-252 | some button is newly pressed exactly when one of the eight is |
| Input.InputState.NowPressedNative | src/core/input/t2kICore.cpp:201-209 | a native button newly pressed is pressed |
| Input.InputState.NowPressedMain | src/core/input/t2kICore.cpp:227-245 | since nothing writes the custom statuses, a button is newly pressed exactly when its bit of the main status went from 1 to 0, and it is then held |
| Input.InputState.NowPressedAnyMain | src/core/input/t2kICore.cpp:247-252 | some button is newly pressed exactly when some bit of the main status went from 1 to 0 |
| Input.InputState.NativeReleased | src/core/input/t2kICore.cpp:197-209 | the native buttons are never pressed or newly pressed, since nothing writes their statuses |
| Input.InputState.InputUpdate | src/core/input/t2kICore.cpp:185-195 | the current status becomes the last one, and the byte read, if any, becomes the current one |
| Input.InputState.RegisterCustomHW | src/core/input/t2kICore.cpp:126-144 | an unknown type fails and changes nothing; a known one sets its bit of the used set and records pin and input type in its slot only |
| Input.InputState.RemoveCustomHW | src/core/input/t2kICore.cpp:146-163 | an unknown type fails and changes nothing; a known one clears its bit and resets its pin to -1, keeping its input type |
| Input.InputState.RegisterCustomCKB | src/core/input/t2kICore.cpp:165-183 | as for custom hardware, for the card keyboard, with the key value stored truncated to a byte |
| Input.RegisterRemoveBits | src/core/input/t2kICore.cpp:140-160 | registering then removing a type leaves its bit clear and every other bit as before; registering sets the bit |
| Input.UpdateEdges | src/core/input/t2kICore.cpp:185-236 | with no byte read no button is newly pressed; with byte s a button is newly pressed exactly when its bit is 0 in s and was 1 before |
| Scene.StoreScenes | src/base/scene/t2kScene.cpp:47-55 | the table keeps its 256 entries |
| Scene.EndOf | src/base/scene/t2kScene.cpp:49 | the end of a terminated array is its first entry with a NULL function |
| Scene.LastFor | src/base/scene/t2kScene.cpp:47-55 | the index found is the last entry in the range with that ID, and none means no entry in the range has it |
| Scene.LastForFront | src/base/scene/t2kScene.cpp:47-55 | dropping the first entry of a range changes the last entry with an ID only when the first entry was it |
| Scene.StoreScenesMeaning | src/base/scene/t2kScene.cpp:47-55 | `t2kAddScenes` completes exactly when every ID before the end is in [0, 255], and then each slot holds the function of the last entry with its ID, or keeps its function when no entry names it |
| Scene.EndMarks | include/t2kScene.h:29 | an entry with a NULL function ends the array whatever its ID, while an entry with ID -1 and a function is rejected rather than taken as the end |
| Scene.Dispatch | src/base/scene/t2kScene.cpp:33-41 | the function run for an ID is its table entry when there is one, else the default |
| Scene.SceneSystem.constructor | src/base/scene/t2kScene.cpp:19-23 | no scenes, no default, both IDs 0 |
| Scene.SceneSystem.SceneInit | src/base/scene/t2kScene.cpp:25-31 | every entry is cleared; it fails without a default and otherwise sets the next ID to 0 and the default; the current ID is unchanged |
| Scene.SceneSystem.SceneUpdate | src/base/scene/t2kScene.cpp:33-41 | the next ID becomes the current one, and the function invoked is `Dispatch` of it |
| Scene.SceneSystem.AddScene | src/base/scene/t2kScene.cpp:43-45 | exactly the given ID's entry is replaced |
| Scene.SceneSystem.AddScenes | src/base/scene/t2kScene.cpp:47-55 | a NULL array fails and changes nothing; otherwise the table and the result are `StoreScenes` of the array |
| Scene.SceneSystem.SetDefaultSceneFunc | src/base/scene/t2kScene.cpp:57-59 | the default is replaced and the IDs are unchanged |
| Scene.SceneSystem.GetCurrentSceneID | src/base/scene/t2kScene.cpp:61-63 | the current scene ID |
| Scene.SceneSystem.SetNextSceneID | src/base/scene/t2kScene.cpp:65-67 | the next ID is set; the current ID and the default stay until the next update |

## Left out

- I2S setup and the I2S write of each 32-sample chunk (`src/core/sound/t2kSCore.cpp` 81-127, 353) are hardware I/O. `soundWrite` returns the chunk it would write.
- The LCD bring-up and the SPI transfers of `flip` (`src/core/graphics/t2kGCore.cpp` 78-95, 324-485) are hardware I/O. `Flip` returns the eight strips it would send.
- The AXP192 power chip, the backlight and the I2C probing in `src/t2kCommon.cpp` are hardware I/O.
- `t2kCheckStartMode` is left out: it polls pins with delays.
- The I2C read in `t2kInputUpdate` is a parameter of type `Option<bv8>`, where None means the device did not answer. The native button status is never written in the source, so `InputState.Valid` keeps it released; no pin level is read.
- Serial diagnostics (`printMmlErrorInfo` and the error messages) are output only, and are left out.
- The free-running `tonePump` task, and the `flipPump`/`t2kFlip` busy-wait on volatile counters, are concurrency.
- FreeRTOS queue internals are left out. Each queue is a sequence of at most 32 packets that enqueues and dequeues without blocking.
- Sine and `rand` noise synthesis and the delta-sigma carry are floating point, and are left out.
- The phase step and the amplitude are exact reals, not `float`. So are durations and the volume scaling; their casts truncate toward zero, and out-of-range values wrap around.
- MmlEngine.FreqEntry: the interior of the frequency table is parametrised by the semitone ratio s, not computed from `pow`. Only the exact anchors are proved: entry 88 is 0, entry 0 is 27.5 and entry 12k is 55·2^(k−1).
- MmlText.ReadNumber: the fraction of `checkNumber` is read as an exact decimal, not accumulated in `float`.
- `t2kDrawCircle` works in floating point, and is not part of this model.
- Graphics.DrawLine: the source keeps the increments `deltaE` and `adjustE` in `float` and the error `e` in `int`; the model works in integers throughout. The values involved are integers far below 2^24, which `float` holds exactly, for lines whose ends are within a few million pixels of the screen.
- The `vsprintf` formatting of `t2kPrintf` is left out. The formatted text is a parameter, and only the centring formula is modelled. Font.FontState.Printf and Font.FontState.PrintfCentred require a text shorter than 256 characters, because the source formats into a 256-byte buffer; a longer text overflows that buffer, which is undefined in C.
- A failing `malloc` is not modelled: allocation always succeeds.
- Sprite.SpriteLib.InitSprite: the palette that `t2kInitSprite` allocates is never initialised in the source. The model states only its length.
- Sprite.SpriteLib.InitSprite requires w ≥ 0, h ≥ 0, h ≤ the number of pattern rows and a caller's bitmap area of at least w·h cells. The source reads one row pointer past the last row, and reads row 0 even when h is 0. It also takes a negative width or height, for which its decoding loops do not run and it reports success; the model does not cover those sizes.
- Sprite.SpriteLib.InitSprite models the intended bitmap pointer and free flags, not the ones the source leaves (see Findings). `Sprite.InitInfoAsWritten` and `Sprite.InitBitmapAsWritten` model the source as written.
- Sprite.PutSprite reads the cell it draws, not the shifted cell the source reads for a sprite clipped on the left (see Findings).
- Graphics.DrawRect draws the intended outline, not the as-written one that escapes the rectangle (see Findings). `Graphics.DrawRectAddressesAsWritten` models the source as written.
- A scene function is returned by `SceneUpdate`, not invoked.
- The comment at `include/t2kScene.h` line 29 says a scene ID of −1 ends the array; the code stops at a NULL function. The model follows the code, and `Scene.EndMarks` shows the difference.
- The `kAllChannels` branch of `t2kClearToneSeq` cannot be reached, because the channel is a `uint8_t`. It is not modelled.
- MmlEngine.Interpretation interprets a command in the corrected dialect of the two MML rows under Findings, not as the source's `parseMmlCommand` is written. A blank tail ends the text, and a rest with a natural sign is silent. As written, a blank tail returns true at `src/base/mml/t2kMML.cpp` 519-522 without moving the cursor or setting the tone outputs.
- MmlEngine.Engine.Interpret: the same corrected dialect; a rest with a natural sign queues the rest entry 88, where the source queues entry 38 for "R=".
- MmlEngine.Engine.RegisterMml: on a blank tail such as "O4 " the source's loop never ends and reuses the previous command's tone outputs. The model reaches the end of the text and stops or repeats as the corrected dialect says. That behaviour rests on values the source leaves stale, so it is not modelled.
- MmlEngine.Engine.UpdateMml: on a blank tail the source's turn reads tone outputs that were never set in that iteration (undefined in C) and never moves the channel on. The model plays the corrected dialect, so such a channel reaches its end and stops or repeats.
- MmlEngine.Engine.RegisterMml and MmlEngine.Engine.PlayMml stop registering after `fuel` commands. The source loops for ever on a text that queues nothing, such as a repeated part without tones. `MmlCheck` models that divergence as a verdict instead.
- MmlLength.LengthTerm: its own contract states only that the index does not move back. What a term denotes is stated apart, by `MmlLength.LengthTermValue`, `MmlLength.TermNumberValue` and `MmlLength.ThenProductValue`.
- MmlLength.LengthTermValue gives the exact value of a scaled term only when the factor's denominator is not 0 and the `mul` fits in int16 (`MulFits`); the wrapped value after an overflow is not characterised.
- MmlLength.LengthSum: its own contract states only that the index does not move back. `MmlLength.LengthSumValue` states its value only when no `add`/`sub` of the loop overflows int16 (`SumFits`); the wrapped value after an overflow is not characterised.
- MmlLength.NoteLength: its own contract states only that the index does not move back. `MmlLength.NoteLengthValue` states its value when neither the numerator nor the denominator of the first term is −32768 and the sum after it fits; other note lengths are not characterised.
- MmlText.ReadInteger reads a digit run as an unbounded natural number. `checkInteger` accumulates it in a C `int`, which overflows (undefined in C, in practice a wrap-around) on runs above 2147483647. For example "@K+4294967297" would wrap to 1 and be accepted, where the model rejects it as greater than 7.
- MmlText.CheckInteger: the same unbounded reading as `ReadInteger`.
- MmlText.ReadNumber and MmlText.CheckNumber: the integer part is the same unbounded reading as `ReadInteger`.
- MmlCommand.RationalValue gives 0 for a zero denominator, where `getRationalValue` divides by zero and gives NaN or an infinity in `float`.
- MmlCommand.DurationOf gives 0 for a zero denominator or a zero tempo, where the source converts NaN or an infinity to an int16, which is undefined in C.
- MmlCommand.Quot gives 0 for a zero divisor, where the source's `float` division gives an infinity or NaN.
- `include/t2kFont.h` is not part of this model. The font is a sequence of 8-byte patterns, and the missing font is `None`.

## Findings

| source | as written | input that shows it | evidently intended | confidence | as-written member | corrected member |
|---|---|---|---|---|---|---|
| src/base/mml/t2kMML.cpp:495-523 | `checkMML` skips white space only before a command, so blank text at the end leaves the cursor where it is and the loop never ends | "O4 " (any valid text followed by a space), and any text of only spaces | trailing white space ends the text: "O4 " is valid, a blank text has no command | not executed | MmlCheck.TrailingSpace | MmlCheck.WhiteSpaceText |
| src/base/mml/t2kMML.cpp:575-586 | with a natural sign a rest looks up `getNoteOffset('R')`, which is −1, and sounds a pitched note | "R=" at the default octave sounds entry 38, not the rest entry 88 | a rest is always silent | not executed | MmlCommand.RestNaturalAsWritten | MmlCommand.RestIsLastEntry |
| src/base/graphics/t2kGraphics.cpp:81-87 | the sides of `t2kDrawRect` run from row top+1 to bottom−2, and the right side uses the unclipped width | height 0 at y = 0 writes address −160; x = −5, width 20 writes column 19 instead of 14 | an outline inside the clipped rectangle | not executed | Graphics.DrawRectAsWrittenEscapes | Graphics.DrawRectCorrected |
| src/base/sprite/t2kSprite.cpp:69-79 | a caller's bitmap area is never stored in the sprite | a fresh sprite given an area decodes through a NULL bitmap | the sprite's bitmap is the caller's area | not executed | Sprite.InitBitmapAsWrittenIgnoresArea | Sprite.InitBitmap |
| src/base/sprite/t2kSprite.cpp:66-76 | allocating the bitmap sets `palette_needToFree`, and `bitmap_needToFree` is never set | a sprite on the global palette with an allocated bitmap | `bitmap_needToFree` is set exactly for an allocated bitmap | not executed | Sprite.InitInfoAsWrittenMisflags | Sprite.InitInfo |
| src/base/sprite/t2kSprite.cpp:147-152 | for a sprite clipped on the left, the cell read is shifted by the clipped columns a second time | an 8×8 sprite half off the left edge reads cell 67 of 64 on its last row | read the cell that is drawn | not executed | Sprite.CellIndexAsWrittenOverruns | Sprite.CellIndexInBitmap |
