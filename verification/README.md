# I Ching throw: a Dafny model

This project models the deterministic core of an I Ching web service written
in Rust (`src/main.rs`). A question (the *prompt*) and a date are hashed
with SHA-256 into a 32-byte seed. The seed starts a ChaCha12 generator. A
*thrower* then draws fair coins from that generator, three per line. Each
coin is worth 2 (a true draw) or 3 (a false draw). The total of three coins,
6, 7, 8 or 9, names the line: changing yin, static yang, static yin or
changing yang. Six lines make a hexagram. The hexagram is shown as six
fixed 11-character glyphs, one per text line.

The modules follow that pipeline:

- `Lines` (`lines.dfy`): the `Line` type and its number and glyph. It also
  holds the classification of a three-coin total, with `None` standing for
  the arm that panics, and the parser that reads a glyph back.
- `Thrower` (`thrower.dfy`): coins, a single throw, repeated throws, the
  six-line hexagram loop, and the 1/3/3/1 count of the eight coin outcomes.
  The generator is the sequence of its coin draws. Each operation takes the
  draws still to come and returns the draws it did not use.
- `Text` (`text.dfy`): joining strings with a separator, and splitting at a
  separator character, which is the inverse of joining.
- `Encoding` (`encoding.dfy`): the text of a hexagram, its fixed layout, and
  the parser that reads it back.
- `Casting` (`casting.dfy`): from a query to a seed, a thrower, a hexagram
  and its text. SHA-256, the date's text and the generator are parameters.
  The hasher is modelled as the bytes fed to it so far. A thrower is its
  generator plus the number of draws taken from it.

The coin values and their sum are `u8` in the source. The model keeps them
as a byte newtype, so Dafny checks that the sum of three coins (at most 9)
cannot overflow.

The date's text is chrono's `Display` of `NaiveDate` (`YYYY-MM-DD` for
years 0 to 9999), taken as the `showDate` parameter.

## Model

| member | source | states |
|---|---|---|
| Thrower.Coin | src/main.rs:89-96 | a coin is worth 2 or 3, and it is worth 2 exactly when the draw is true |
| Lines.Code | src/main.rs:118-127 | each line's number is in 6..9; odd numbers are exactly the yang (solid) lines; 6 and 9 are exactly the changing lines |
| Lines.CodeInjective | src/main.rs:100-104 | no two lines share a number, so the classification table is one-to-one |
| Lines.Classify | src/main.rs:100-105 | a total is classified exactly when it is 6..9, and then as the one line with that number; any other total reaches the panicking arm |
| Thrower.ThrowNeverPanics | src/main.rs:100-105 | three coin values always total 6..9, so the panicking arm cannot be reached |
| Thrower.Throw | src/main.rs:98-107 | a throw uses exactly the next three draws and gives the line whose number is their coin total; the panicking arm is proved dead in its body |
| Thrower.LineOfTable | src/main.rs:89-104 | which coin triples give each line: all true gives changing yin, two true static yang, one true static yin, none true changing yang |
| Thrower.OutcomesChangingYin | src/main.rs:89-101 | exactly one of the eight coin triples gives a changing yin |
| Thrower.OutcomesStaticYang | src/main.rs:89-102 | exactly three of the eight coin triples give a static yang |
| Thrower.OutcomesStaticYin | src/main.rs:89-103 | exactly three of the eight coin triples give a static yin |
| Thrower.OutcomesChangingYang | src/main.rs:89-104 | exactly one of the eight coin triples gives a changing yang |
| Thrower.Weighting | src/main.rs:89-104 | the lines come out of the eight equally likely triples 1, 3, 3 and 1 times |
| Thrower.Throws | src/main.rs:160-162 | n throws in a row give n lines, line i made from draws 3i..3i+2, and use exactly the first 3n draws |
| Thrower.ThrowsCompose | src/main.rs:158-164 | m throws followed by n more on the same thrower are the same as m+n throws, in order |
| Thrower.DrawHexagram | src/main.rs:109-115 | the loop overwrites all six placeholder slots; line i comes from draws 3i..3i+2; exactly 18 draws are used; the result agrees with six throws in a row |
| Lines.Glyph | src/main.rs:129-140 | every glyph has 11 characters and no newline; it ends with the digit of its line's number; a yin line has a gap; a changing line has an x or an o at its centre |
| Lines.GlyphInjective | src/main.rs:129-140 | the four glyphs are pairwise distinct |
| Lines.ParseGlyph | src/main.rs:129-140 | reads back exactly the line with the given glyph, and nothing for any other text |
| Text.Join | src/main.rs:146 | no parts join to "", one part joins to itself, and k parts give their characters plus k-1 separators |
| Text.JoinSnoc | src/main.rs:146 | adding a part to a non-empty list appends one separator and then that part, so consecutive parts have exactly one separator between them |
| Text.Split | src/main.rs:146 | splitting at a character gives one piece more than the character's occurrences, and no piece contains it |
| Text.SplitJoin | src/main.rs:146 | splitting the join of separator-free parts gives back the parts |
| Text.JoinSplit | src/main.rs:146 | joining the pieces of a split gives back the string |
| Encoding.Glyphs | src/main.rs:145 | one glyph per line, in the same order |
| Encoding.JoinLayout | src/main.rs:146 | joining 11-character parts with newlines puts part i at offset 12i, followed by a newline unless it is the last |
| Encoding.Format | src/main.rs:144-147 | the text has 71 characters with glyph i at offset 12i, each glyph but the last followed by a newline; it has exactly 5 newlines, none at either end, and splits back into the six glyphs |
| Encoding.ParseFormat | src/main.rs:144-147 | the text of a hexagram reads back as that hexagram |
| Encoding.EncodingBijective | src/main.rs:144-147 | a text reads back as a hexagram exactly when it is that hexagram's text |
| Encoding.FormatInjective | src/main.rs:144-147 | two hexagrams have the same text exactly when they are equal |
| Casting.HashInput | src/main.rs:70-76 | the hash is fed the prompt's bytes first, then the date's text, and nothing else |
| Casting.Seed | src/main.rs:70-76 | a fresh hasher fed the prompt, then the date's text, then finalized, gives the SHA-256 digest of the hash input taken in one go |
| Casting.NewThrower | src/main.rs:83-87 | a new thrower's generator is seeded with the SHA-256 digest of the query's hash input, and nothing has been drawn from it yet |
| Casting.Cast | src/main.rs:109-115 | the hexagram of a query is drawn from the generator seeded with the query's seed: line i has the coin total of generator draws 3i..3i+2 |
| Casting.CastText | src/main.rs:38-40 | the text shown for a query has 71 characters and reads back as the hexagram cast for it |
| Casting.Deterministic | src/main.rs:70-87 | queries with the same hash input, and so equal queries, get the same hexagram and the same text |
| Casting.TextIdentifiesCast | src/main.rs:39-40 | two queries show the same text exactly when they are cast the same hexagram |
| Casting.ConcatenatedFeed | src/main.rs:72-74 | prompt and date text are fed with no separator: if one date's text is a suffix of another's, moving the extra prefix into the prompt gives the same hash input and the same hexagram |

## Left out

- The HTTP server: routing, socket binding, the startup message, query parsing and the HTML templates (src/main.rs:7-68). This is network I/O and rendering around the core. `CastText` stands for the two core lines of `get_throw`.
- SHA-256 is not modelled. It is the `sha256` parameter of `Casting.Primitives`, which returns 32 bytes. The model proves nothing about collisions or avalanche. So the claim that different queries give different seeds is out of scope.
- The date's text is chrono's `Display` of `NaiveDate`, a foreign library. It is the `showDate` parameter. A date is a plain year, month and day with no calendar validity check. The date library rejects invalid dates before the core runs.
- Prompt bytes: the prompt is modelled as its UTF-8 bytes. Encoding a Rust `String` into bytes is not modelled.
- The ChaCha12 generator and the float-threshold sampling of `gen_bool(0.5)` are foreign code, and the sampling is floating point. The generator is the `generator` parameter: an unending sequence of fair coin draws, one per `gen_bool(0.5)` call. Thrower operations take a finite list of draws and require it to be long enough. The real generator never runs out.
- Thrower.Weighting: counts outcomes over the eight coin triples. It says nothing about the empirical frequencies of a real generator.
- `test_throwing` reads the current local date (src/main.rs:156). `ThrowsCompose` and `Throws` cover its throws for any draws. The clock is not modelled. The empty `test_throw_stability` has nothing to model.
- Casting.ConcatenatedFeed: states the ambiguity for any date text. Whether chrono renders a pair of dates that way is not modelled. For years beyond 9999 it prints a leading sign, which would make one date's text a suffix of another's.
