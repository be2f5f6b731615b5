# Stream cipher over two toy random generators

This project models `cipher.py`. The file defines a pseudo-random generator base
class `PRNG` and two generators derived from it:

- `MiddleSquarePRNG` is von Neumann's middle-square method. A draw squares the
  seed and writes the square in decimal, zero-padded to at least `digits`
  characters. The centred `digits` characters are parsed back, and that value
  becomes both the output and the new seed.
- `lcgPRNG` is the linear congruential generator with the constants of the
  ANSI C `rand()` example: `seed := (1103515245 * seed + 12345) mod 2^32`.

`cypherTest` is an XOR stream cipher on top of a generator. It seeds the
generator with a key, then XORs every character code of a message with one
keystream byte `int(x * 255)`, where `x` is a normalised draw. To decrypt, it
reseeds with the same key and runs the same pass again. `diceTest` turns 100
normalised draws into die rolls `int(x * 6) + 1`.

## Modules

| module | file | contents |
|---|---|---|
| `Numerics` | `numerics.dfy` | powers of ten and two; Euclidean division facts; Python's `^` on non-negative integers (`Xor`); bytes and code points |
| `Decimal` | `decimal.dfy` | `str(n)`, `s.zfill(w)`, `'9' * d` and `int(s)` on digit strings; the digit functions `DropDigits` (`n // 10^k`) and `LowDigits` (`n % 10^k`) |
| `Normalize` | `normalize.dfy` | a normalised draw as the exact fraction `raw / denom`; `int(x * 255)` and `int(x * 6) + 1` |
| `MiddleSquare` | `middle_square.dfy` | the class `MiddleSquarePrng` and the arithmetic `Next` its draw computes |
| `Lcg` | `lcg.dfy` | the class `LcgPrng` and its recurrence `Next` |
| `Generator` | `generator.dfy` | the base-class protocol: the state of a generator (`PrngState`), its draws and keystream as functions, and `Prng`, a generator object of either kind |
| `Cipher` | `cipher.dfy` | `xorString` and `cypherTest` |
| `Dice` | `dice.dfy` | the roll loop of `diceTest` |

The methods of the two classes execute the same steps as the Python ones.
`MiddleSquarePrng.GetRawPrng` builds the decimal string, pads it, cuts the
window and parses it (through `MiddleSquare.MiddleOfSquare`). Pure functions over `PrngState` specify these methods:
`Advance` is one raw draw, `AdvanceN` is `n` raw draws, `Draw` is the
normalised value and `Keystream` gives the bytes. The lemmas about the cipher
and the dice are stated over those functions.

From the default seed 123456 the LCG's first draw is
3510437241 = (1103515245 · 123456 + 12345) mod 2^32, proved by
`Lcg.DefaultFirstDraw`.

The docstring of `diceTest` (cipher.py:26-27) describes a roll as `n * 5 + 1`,
a face between 1 and 6. The code (cipher.py:156) computes `int(n * 6) + 1`
instead. The model follows the code. An LCG draw is always below 1, so its rolls
stay in 1..6 (`Dice.LcgRollsAreFaces`). A middle-square draw can equal
`maxValue`, which normalises to exactly 1 and rolls a 7
(`Dice.MiddleSquareRollsRange`). With five digits, seed 83666 is such a case
(`Dice.SevenIsReachable`).

## Model

| member | source | states |
|---|---|---|
| Numerics.XorBits | cipher.py:133 | `Xor`, the model of `^`, works bit by bit: the lowest bit of `a ^ b` is 1 exactly when the lowest bits differ, and the higher bits are the XOR of the higher bits |
| Numerics.XorZero | cipher.py:133 | `a ^ 0 == a` |
| Numerics.XorSelfInverse | cipher.py:133 | `(a ^ b) ^ b == a` for all non-negative `a`, `b`: XOR with the same byte undoes itself |
| Numerics.XorKeepsHighBits | cipher.py:133 | XOR with `b < 2^k` leaves every bit from `k` up unchanged |
| Numerics.XorByteIsCodePoint | cipher.py:132-134 | XORing a code point with a byte gives a code point, so `chr` of an output character never fails |
| Numerics.XorCodePoint | cipher.py:133-134 | one output character `chr(ord(c) ^ b)` is a code point, and XORing it with `b` again gives `c` |
| Decimal.DecimalString | cipher.py:80 | `str(n)` is a non-empty string of decimal digits, `NumDigits(n)` long, with no leading zero unless `n == 0` |
| Decimal.Repeat | cipher.py:75 | `ch * k` has length `k`, and every character is `ch` |
| Decimal.ZFill | cipher.py:83 | `zfill` gives the longer of `s` and `width`: every added character on the left is `'0'`, and `s` follows them unchanged |
| Decimal.ValueOfDecimalString | cipher.py:80-90 | `Value`, the model of `int(s)`, inverts `str`: `int(str(n)) == n` |
| Decimal.ValueOfPadded | cipher.py:83-90 | leading zeros before a digit string do not change its value |
| Decimal.ValueOfZeros | cipher.py:83-90 | a string of zeros has value 0 |
| Decimal.ValueOfPrefix | cipher.py:90 | dropping the last `k` characters of a digit string drops its `k` lowest digits |
| Decimal.ValueOfSuffix | cipher.py:90 | the last `k` characters of a digit string are its `k` lowest digits |
| Decimal.ValueOfZFill | cipher.py:83 | zero padding keeps a digit string a digit string and does not change its value |
| Decimal.ValueOfNines | cipher.py:75 | `int('9' * d) == 10^d - 1` |
| Decimal.ValueOfWindow | cipher.py:90 | parsing the `d` characters at `i` of a digit string with `e` characters after them drops the `e` lowest digits of its value and keeps `d` |
| Decimal.DropDigitsIsQuotient | cipher.py:90 | dropping `k` digits is Python's `n // 10^k` |
| Decimal.LowDigitsIsRemainder | cipher.py:90 | keeping `k` digits is Python's `n % 10^k` |
| MiddleSquare.MaxValueFor | cipher.py:75 | `maxValue = int('9' * d)` equals `10^d - 1` |
| MiddleSquare.Next | cipher.py:80-90 | a middle-square draw is below `10^d` |
| MiddleSquare.LeftPos | cipher.py:88 | for `width >= digits`, `leftPos` is half of `width - digits`, rounded down, so the window is centred with any odd character on the right |
| MiddleSquare.RightOfWindow | cipher.py:88-90 | the window starts inside the string, and `w - leftPos - d` characters, half of `w - d` rounded up, follow it |
| MiddleSquare.PaddedSquare | cipher.py:80-83 | `str(s²).zfill(d)` is a digit string of the padded width whose value is `s²` |
| MiddleSquare.WindowOfPadded | cipher.py:86-90 | in any digit string of the padded width with value `s²`, the window at `leftPos` lies inside the string and parses to `Next(seed, d)` |
| MiddleSquare.WindowIsNext | cipher.py:80-90 | the string steps are well defined: the padded square is a digit string and the window `[leftPos, leftPos + d)` lies inside it. Parsing that window gives `Next(seed, d)` |
| MiddleSquare.NextIsQuotientRemainder | cipher.py:80-90 | with `w` the padded width and `leftPos = (w - d) / 2`, a draw equals `(s² // 10^(w - leftPos - d)) % 10^d` |
| MiddleSquare.ZeroIsFixedPoint | cipher.py:80-90 | from seed 0 the draw is 0 again, for every width |
| MiddleSquare.DrawFrom83666 | cipher.py:80-90 | with five digits, seed 83666 draws 99999, the value of `maxValue` |
| MiddleSquare.MiddleOfSquare | cipher.py:80-90 | running the string steps (square, `str`, `zfill`, cut the window, parse) gives `Next(seed, d)` |
| MiddleSquare.MiddleSquarePrng.constructor | cipher.py:67-69 | a new generator has seed 0 and 5 digits, with `maxValue` in step |
| MiddleSquare.MiddleSquarePrng.SetSeed | cipher.py:71-72 | only the seed changes, to `s` |
| MiddleSquare.MiddleSquarePrng.SetDigits | cipher.py:73-75 | `digits := d` and `maxValue := 10^d - 1`; the seed stays |
| MiddleSquare.MiddleSquarePrng.GetRawPrng | cipher.py:76-94 | the result is `Next(old seed, digits)`, it lies in `[0, maxValue]` and becomes the seed; `digits` and `maxValue` stay |
| MiddleSquare.MiddleSquarePrng.GetNormalizedPrng | cipher.py:95-100 | exactly one raw draw, returned over `maxValue` |
| MiddleSquare.DefaultIsStuck | cipher.py:67-94 | a freshly constructed generator draws 0, 0, 0 |
| Lcg.Next | cipher.py:117 | the result is in `[0, 2^32)` and congruent to `1103515245 * seed + 12345` modulo `2^32`, for seeds of any sign |
| Lcg.LcgPrng.constructor | cipher.py:107-115 | seed 123456 and the constants `a`, `m`, `c` |
| Lcg.LcgPrng.GetRawPrng | cipher.py:116-118 | the result is `Next(old seed)`, lies in `[0, m)` and becomes the seed |
| Lcg.LcgPrng.GetNormalizedPrng | cipher.py:119-120 | exactly one raw draw, returned over `m` |
| Lcg.DefaultFirstDraw | cipher.py:107-118 | the first draw of a fresh generator is 3510437241 |
| Normalize.Scaled | cipher.py:57 | `int(x * k)` is the floor: `r * denom <= raw * k < (r + 1) * denom` |
| Normalize.ToByte | cipher.py:57 | `int(x * 255)` is its floor: `b * denom <= raw * 255 < (b + 1) * denom` |
| Normalize.ToRoll | cipher.py:156 | `int(x * 6) + 1` is the face `f` with `(f - 1) * denom <= raw * 6 < f * denom` |
| Normalize.ScaledRange | cipher.py:57 | for a draw in `[0, 1]`, `int(x * k)` lies in `[0, k]`, and equals `k` exactly when the draw is 1 |
| Normalize.ByteRange | cipher.py:57 | `int(x * 255)` lies in `[0, 255]`, and is 255 exactly when the draw is 1 |
| Normalize.RollRange | cipher.py:156 | `int(x * 6) + 1` lies in `[1, 7]`, and is 7 exactly when the draw is 1 |
| Generator.WithSeed | cipher.py:41-42 | `setSeed(s)` sets the seed to `s` and keeps the generator kind, `digits` and `maxValue` |
| Generator.Advance | cipher.py:93 | one raw draw keeps `digits`, `maxValue` and the `setDigits` invariant |
| Generator.AdvanceN | cipher.py:93 | any number of raw draws keeps the generator kind, `digits`, `maxValue` and the `setDigits` invariant |
| Generator.DrawRange | cipher.py:95-120 | `Draw`, the value of `getNormalizedPRNG`: a middle-square draw normalises into `[0, 1]` over `maxValue`; an LCG draw normalises into `[0, 1)` |
| Generator.Keystream | cipher.py:128-135 | `n` keystream bytes are drawn for an `n`-character message |
| Generator.KeystreamAt | cipher.py:128-135 | keystream byte `i` is the byte of the draw made after `i` earlier draws |
| Generator.KeystreamByteRange | cipher.py:53-57 | for `KeyByte`, the byte `toNormalizedByte` returns, every LCG keystream byte is at most 254; a middle-square byte is 255 exactly when its draw equals `maxValue` |
| Generator.ReseedForgetsDraws | cipher.py:142 | after any number of draws, `setSeed(key)` restores exactly the state an earlier `setSeed(key)` gave |
| Generator.ZeroSeedIsStuck | cipher.py:76-94 | a middle-square generator at seed 0 never leaves it, and every draw is 0 |
| Generator.Prng.SetSeed | cipher.py:41-42 | on either generator, the new state is the old one with seed `s` |
| Generator.Prng.GetSeed | cipher.py:43-44 | returns the current seed |
| Generator.Prng.GetRawPrng | cipher.py:45-47 | dispatches to the generator's draw: the new state is `Advance(old state)`, and the result is the new seed |
| Generator.Prng.GetNormalizedPrng | cipher.py:49-52 | dispatches to the generator's normalised draw: one raw draw, and the result is `Draw(old state)` |
| Generator.Prng.ToNormalizedByte | cipher.py:53-57 | one raw draw; the byte is `int(x * 255)` of that draw |
| Cipher.XorWith | cipher.py:128-135 | XORing with a keystream keeps the message length |
| Cipher.XorWithAt | cipher.py:130-134 | output position `i` is `msg[i] ^ ks[i]` |
| Cipher.XorWithInvolution | cipher.py:133 | XORing twice with the same keystream gives the message back |
| Cipher.XorWithSnoc | cipher.py:130-134 | appending one character and one keystream byte appends their XOR to the output |
| Cipher.XorWithStep | cipher.py:130-134 | one iteration of the loop: the output so far plus character `pos` XORed with the byte of the draw after `pos` draws is the XOR of the first `pos + 1` characters |
| Cipher.EncryptAt | cipher.py:125-136 | `Encrypt`, the text `xorString` returns after `setSeed(key)`: the ciphertext has the message's length, and character `i` is `msg[i]` XORed with the byte of the draw after `i` draws from `setSeed(key)` |
| Cipher.CipherRoundTrip | cipher.py:125-143 | decrypting with the encryption key gives the message back, whatever draws happened in between |
| Cipher.XorString | cipher.py:128-135 | the result is the message XORed with the next `len(msg)` keystream bytes, and the generator has advanced by exactly `len(msg)` draws |
| Cipher.CypherTest | cipher.py:122-148 | the decrypted text equals the message. The ciphertext is the key's encryption, and the wrong-key text is the ciphertext run through `key + 1`'s keystream |
| Dice.RollFrom | cipher.py:156 | one roll `int(x * 6) + 1` of a draw in `[0, 1]` lies in `[1, 7]` |
| Dice.Rolls | cipher.py:155-157 | `n` samples give `n` rolls |
| Dice.RollsAt | cipher.py:155-157 | roll `i` is the die face of the draw after `i` draws |
| Dice.LcgRollsAreFaces | cipher.py:155-157 | with the LCG every roll is in `[1, 6]` |
| Dice.MiddleSquareRollsRange | cipher.py:155-157 | with the middle square a roll is in `[1, 7]`, and it is 7 exactly when its draw equals `maxValue` |
| Dice.SevenIsReachable | cipher.py:156 | a five-digit middle-square generator at seed 83666 rolls a 7 |
| Dice.DiceTest | cipher.py:150-157 | the sample list is the first 100 rolls from the generator's state, and the generator has advanced 100 draws |

## Left out

- Floating point: `getNormalizedPRNG` returns a float `raw / denom`, and `int(x * 255)` and `int(x * 6)` truncate a float product. In the model `x` is the exact fraction, and the scaled value is the exact floor `(raw * k) // denom`. Float rounding could differ from that floor in rare edge cases. A draw equal to the denominator gives exactly 1.0 in both.
- `int((width - digits) / 2)` also goes through a float. For the widths a square can have it equals the integer floor, and the model uses that floor (`MiddleSquare.LeftPos`).
- MiddleSquare.MiddleSquarePrng.SetDigits: requires `d >= 1`. For `d <= 0`, Python's `int('')` raises after `digits` has already been assigned. The model does not represent that exception or the half-updated object.
- Decimal.Value: gives the empty string the value 0 where Python's `int('')` raises. The model only parses windows of at least one digit, so the difference never shows.
- The bare base class: `PRNG()` on its own has `getRawPRNG` and `getNormalizedPRNG` that return `None`. Only the two derived generators are modelled. Their dynamic dispatch is a closed choice between the two kinds (`Generator.Prng`).
- All output: every `print`, and the `__main__` demonstration at the end of cipher.py. The fixed demo message of `cypherTest` is the `message` parameter of `Cipher.CypherTest`.
- The mean and `statistics.pstdev` of `diceTest` are float statistics computed by a library.
- The key-sensitivity claim (decrypting with `key + 1` gives garbage) and any claim about period or cryptographic strength. These are demonstrations, not properties the code guarantees. `Cipher.CypherTest` only states what the wrong-key text is.
- Python strings are modelled as sequences of code points, and `ord`/`chr` are the identity on them.
- Python's integers are unbounded, and so are the model's. The LCG's `% 2**32` is written out as a modulus.
- visualize_cipher.py is not part of this model. That covers its image input and output, and its constant generator `DumbPRNG`.
