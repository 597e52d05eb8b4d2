# Random content generator, modelled in Dafny

`RandomContentGenerator` is a PHP class that builds fake records from a model. A model maps
each field name to a short type string:

- `i` or `i:min-max` gives an integer;
- `f` gives a float;
- `t:<n>w`, `t:<min>-<max>w`, `t:<n>s` or `t:<min>-<max>s` gives a text of words or of sentences;
- `p:<width>*<height>` gives a picsum.photos picture URL.

The constructor parses every type string and throws on the first one it refuses.
`fetch` produces one record holding a value per field. `fetchAll` produces `volume` records.
`fetchObj` hands each value to a setter whose name comes from the field name.

The Dafny project models this as follows:

- `wrappers.dfy` (`Wrappers`): the `Option` and `Result` datatypes.
- `php_strings.dfy` (`PhpStrings`): the PHP built-ins the class relies on.
  - `explode`, `implode`, and `list($a, $b) = explode(...)` (a missing second piece is `null`, and pieces after the second are dropped);
  - `ctype_digit`, numeric-string values, integer-to-string conversion and ASCII `ucfirst`;
  - the round trips between `explode` and `implode`.
- `word_pool.dfy` (`WordPool`): the 131-word `WORDS_POOL`, and the fact that every pool word is non-empty, starts with a lower-case letter and holds no space or `.`.
- `field_spec.dfy` (`FieldSpecs`): the parsed field descriptor and the parser for type strings (`_parseType` and the three `_parse*Options` functions, which are pure). Lemmas show which strings are accepted, in both directions.
- `field_spec_examples.dfy` (`FieldSpecExamples`): the parser on concrete type strings: unknown codes, the default and empty int options, an extra `-` piece, inverted ranges, an empty length or upper bound before a text unit, an unknown unit, and image sizes with zeros, without `*` or with an empty height.
- `value_generator.dfy` (`ValueGenerator`): `_generateIntProp`, `_generateTextProp` (two nested loops), `_generateImageProp` and the per-field dispatch of `_generateModel`.
  - `mt_rand(min, max)` is an oracle whose result is only known to lie in `[min, max]`.
  - `GenerateTextProp`, `GenerateImageProp` and the per-field `GenerateValue` also return, as a ghost value, the random choices they made (a `Draw`).
  - Their contracts tie the value to `Render(spec, draw)` and the choices to `Drawn(spec, draw)`.
- `value_facts.dfy` (`ValueFacts`): what every rendered value looks like, whatever was drawn.
  - A word text explodes on spaces into the drawn pool words.
  - A sentence text explodes on full stops into the capitalised sentence bodies.
  - A picture URL explodes into its width, its height and an id in `[0, 1000]`.
- `setter_name.dfy` (`SetterNames`): the setter name `fetchObj` derives (`image_url` becomes `setImageUrl`).
- `content_generator.dfy` (`ContentGenerator`): the class itself.
  - Its `volume` and `model` fields and the `Valid` invariant (distinct keys, every descriptor well formed).
  - The constructor as a factory returning a `Result`, because the PHP constructor can throw. The default-argument construction is a second factory.
  - `fetch` and `fetchAll` as loops. A record is a list of (key, value) pairs in model order.

Two behaviours of the code are worth stating plainly, because the model keeps them.

- Width and height stay the digit strings that were written and are copied verbatim into the URL; `p:0*007` is accepted and gives `.../0/007?image=...`.
- `fetchAll` returns no records for a volume below one, as its `for` loop (RandomContentGenerator.php:156) does.

## Model

| member | source | states |
|---|---|---|
| PhpStrings.Explode | RandomContentGenerator.php:30 | `explode` always yields at least one piece, and no piece holds the separator |
| PhpStrings.Implode | RandomContentGenerator.php:146 | `implode(sep, parts)`: the parts with `sep` between neighbours, `""` for none (also at :213, :225 and :227); characterised by ImplodeExplode, ExplodeImplode and ImplodeAvoids |
| PhpStrings.Second | RandomContentGenerator.php:30 | the second `list` variable is `null` exactly when there are fewer than two pieces |
| PhpStrings.ExplodeFirstTwo | RandomContentGenerator.php:30 | with at least two pieces, the text is the first piece, the separator, the second piece and then nothing or a further separator |
| PhpStrings.ExplodeOnePiece | RandomContentGenerator.php:104 | a single piece is the whole text |
| PhpStrings.ExplodePair | RandomContentGenerator.php:30 | `a`, separator, `b`, then nothing or a further separator and anything: the first two pieces are `a` and `b` |
| PhpStrings.ImplodeExplode | RandomContentGenerator.php:142-146 | joining the pieces of a split with the separator gives the text back |
| PhpStrings.ExplodeImplode | RandomContentGenerator.php:213 | splitting a join of separator-free parts gives the parts back |
| PhpStrings.ExplodeAppend | RandomContentGenerator.php:30 | splitting `x`, separator, `y` gives the pieces of `x` followed by those of `y` |
| PhpStrings.ImplodeAvoids | RandomContentGenerator.php:213 | a character in neither the separator nor any part is not in the join |
| PhpStrings.CtypeDigit | RandomContentGenerator.php:65-66 | `ctype_digit` (also at :106-107 and :126-127): a digit string holds none of the separators `:`, `-`, `*` the parser splits on |
| PhpStrings.DigitsValue | RandomContentGenerator.php:67 | the value PHP compares digit strings by (also at :108): leading zeros do not change it |
| PhpStrings.NatToString | RandomContentGenerator.php:231 | the decimal text of an id is a digit string without a leading zero |
| PhpStrings.NatToStringValue | RandomContentGenerator.php:231 | the decimal text of an id reads back as that id |
| PhpStrings.UcFirst | RandomContentGenerator.php:225 | `ucfirst` keeps the length |
| PhpStrings.ToUpper | RandomContentGenerator.php:225 | a lower-case letter becomes upper case and every other character is unchanged |
| WordPool.PoolSize | RandomContentGenerator.php:14-15 | the pool holds 131 words |
| WordPool.PoolIsPlain | RandomContentGenerator.php:15 | every pool word is non-empty, starts with a lower-case letter and holds no space or `.` |
| WordPool.PoolWordIsPlain | RandomContentGenerator.php:15 | any given pool word is such a word |
| FieldSpecs.ParseType | RandomContentGenerator.php:27-55 | success only for the codes `i`, `f`, `t`, `p`, with a well-formed descriptor; any other code, the empty one included, fails naming the code |
| FieldSpecs.ParseOptions | RandomContentGenerator.php:33-52 | the switch fails with an unsupported-type error exactly for codes outside `i`, `f`, `t`, `p` |
| FieldSpecs.ParseIntOptions | RandomContentGenerator.php:57-72 | no options give [0, mt_getrandmax()]; a success is a range with 0 <= min <= max; every failure is an int-options error |
| FieldSpecs.ParseTextOptions | RandomContentGenerator.php:91-119 | a success ends in `w` or `s` and has that unit, and a range has min <= max; every failure is a unit error or a text-options error, and the unit error happens exactly when the last character is missing or not `w`/`s` |
| FieldSpecs.ParseImageOptions | RandomContentGenerator.php:121-132 | a success needs options; every failure is an image-options error |
| FieldSpecs.BareTypeCode | RandomContentGenerator.php:30 | a type string without `:` is its code with absent (`null`) options |
| FieldSpecs.TypeCodeWithOptions | RandomContentGenerator.php:30 | in `code:opts`, the options are `opts`, and anything after a second `:` is ignored |
| FieldSpecs.DigitsHoldNo | RandomContentGenerator.php:65-66 | a digit string holds no separator |
| FieldSpecs.IntOptionsRange | RandomContentGenerator.php:63-71 | `a-b` with digit strings gives [a, b] when a <= b and fails otherwise, whatever follows a further `-` |
| FieldSpecs.IntOptionsAccepted | RandomContentGenerator.php:63-71 | conversely, accepted int options are two digit strings around a `-`, and the range is their values |
| FieldSpecs.TextOptionsFixed | RandomContentGenerator.php:93-114 | a digit string and a unit letter give that fixed length and unit |
| FieldSpecs.TextOptionsRange | RandomContentGenerator.php:104-116 | `a-b` and a unit letter give the range [a, b] when a <= b and fail otherwise |
| FieldSpecs.TextOptionsAccepted | RandomContentGenerator.php:104-116 | conversely, accepted text options are a digit string (fixed) or two digit strings around a `-` (range) before the unit letter |
| FieldSpecs.ImageOptionsSize | RandomContentGenerator.php:124-131 | `w*h` with digit strings is accepted with both kept verbatim, zero and leading zeros included |
| FieldSpecs.ImageOptionsAccepted | RandomContentGenerator.php:124-131 | conversely, accepted image options are two digit strings around a `*` |
| FieldSpecs.IntTypeString | RandomContentGenerator.php:27-72 | `i:a-b...` parses to [a, b] or fails when a > b |
| FieldSpecs.TextFixedTypeString | RandomContentGenerator.php:27-119 | `t:nw` and `t:ns` parse to exactly n words or sentences |
| FieldSpecs.TextRangeTypeString | RandomContentGenerator.php:27-119 | `t:a-bw` and `t:a-bs` parse to the range [a, b] or fail when a > b |
| FieldSpecs.ImageTypeString | RandomContentGenerator.php:27-132 | `p:w*h` parses to an image with that width and height verbatim |
| FieldSpecs.DefaultTitleType | RandomContentGenerator.php:20 | the default `t:4-6w` parses to 4 to 6 words |
| FieldSpecs.DefaultContentType | RandomContentGenerator.php:20 | the default `t:5s` parses to 5 sentences |
| FieldSpecs.DefaultImageType | RandomContentGenerator.php:20 | the default `p:400*300` parses to a 400 by 300 picture |
| FieldSpecExamples.CodeExamples | RandomContentGenerator.php:33-35 | `x` and the empty string are unsupported types; `f` is a float field |
| FieldSpecExamples.LongCodeExample | RandomContentGenerator.php:30-35 | `int:1-2` fails: only the one-letter codes are supported |
| FieldSpecExamples.IntDefaultExamples | RandomContentGenerator.php:59-69 | `i` gives [0, 2147483647]; `i:` and `i:5` fail |
| FieldSpecExamples.IntRangeExample | RandomContentGenerator.php:63-71 | `i:3-9` gives [3, 9] |
| FieldSpecExamples.IntEmptyMaxExample | RandomContentGenerator.php:63-69 | `i:5-` fails: the empty upper bound is not a digit string |
| FieldSpecExamples.IntInvertedExample | RandomContentGenerator.php:64-69 | `i:5-1` fails |
| FieldSpecExamples.IntExtraPieceExample | RandomContentGenerator.php:63 | `i:1-2-3` gives [1, 2] |
| FieldSpecExamples.TextRefusedExamples | RandomContentGenerator.php:93-100 | `t:5z` and `t` fail on the unit |
| FieldSpecExamples.TextEmptyLengthExamples | RandomContentGenerator.php:104-110 | `t:w` (empty length) and `t:5-w` (empty upper bound) fail as invalid text options |
| FieldSpecExamples.TextInvertedExample | RandomContentGenerator.php:104-110 | `t:6-4w` fails |
| FieldSpecExamples.ImageZeroExample | RandomContentGenerator.php:124-131 | `p:0*007` is accepted, with `007` kept as written |
| FieldSpecExamples.ImageRefusedExamples | RandomContentGenerator.php:124-129 | `p` and `p:400x300` fail |
| FieldSpecExamples.ImageEmptyHeightExample | RandomContentGenerator.php:124-129 | `p:400*` fails: the empty height is not a digit string |
| ValueGenerator.MtRand | RandomContentGenerator.php:194 | `mt_rand(min, max)` lies in [min, max] |
| ValueGenerator.Sentence | RandomContentGenerator.php:225 | `ucfirst(implode(" ", $sentence)) . "."` is non-empty and ends in a full stop; characterised by SentenceShape |
| ValueGenerator.ImageUrl | RandomContentGenerator.php:231 | the URL starts with `https://picsum.photos/` and is 30 characters longer than the width, height and decimal id together |
| ValueGenerator.DrawWord | RandomContentGenerator.php:210 | a drawn word is a pool word |
| ValueGenerator.GenerateIntProp | RandomContentGenerator.php:193-195 | the integer lies in the descriptor's range |
| ValueGenerator.GenerateTextProp | RandomContentGenerator.php:201-228 | the text is the render of choices the descriptor allows: an amount in range (or the fixed length) of pool words joined by spaces, or that many sentences of 4 to 17 pool words |
| ValueGenerator.GenerateImageProp | RandomContentGenerator.php:230-232 | the URL is the render of an id in [0, 1000] |
| ValueGenerator.GenerateValue | RandomContentGenerator.php:173-187 | each field's value is the render of choices its descriptor allows |
| ValueFacts.PoolWordsHaveNoSpace | RandomContentGenerator.php:15 | drawn words hold no space |
| ValueFacts.WordsTextSplits | RandomContentGenerator.php:207-213 | a word text is empty for no words and otherwise splits on spaces into exactly the drawn words, in order |
| ValueFacts.UcFirstAvoids | RandomContentGenerator.php:225 | `ucfirst` adds no character except an upper-case letter |
| ValueFacts.UcFirstImplode | RandomContentGenerator.php:225 | `ucfirst` of a join upper-cases the first word only |
| ValueFacts.SentenceBodyWords | RandomContentGenerator.php:225 | a sentence body splits on spaces into its words, the first capitalised |
| ValueFacts.SentenceShape | RandomContentGenerator.php:225 | a sentence starts with an upper-case letter, ends in its only full stop, and its body splits into its words |
| ValueFacts.BodyHasNoStop | RandomContentGenerator.php:225 | a sentence body holds no full stop |
| ValueFacts.SentencesTextSplits | RandomContentGenerator.php:216-227 | a sentence text is empty for none; otherwise it splits on `.` into the sentence bodies, each after the first led by the joining space, and a final empty piece |
| ValueFacts.ImageUrlSlashes | RandomContentGenerator.php:231 | the URL splits on `/` into `https:`, an empty piece, `picsum.photos`, the width verbatim, and the height verbatim with the query |
| ValueFacts.ImageUrlId | RandomContentGenerator.php:231 | after the `=` comes the id in decimal, which reads back as the id |
| SetterNames.UcFirstAll | RandomContentGenerator.php:143-145 | every part gets its first character upper-cased, nothing else changes |
| SetterNames.SetterName | RandomContentGenerator.php:142-146 | `set` followed by the `_`-separated parts of the property, each through `ucfirst`; characterised by SetterNameShape and SetterNameOfParts |
| SetterNames.SetterNameShape | RandomContentGenerator.php:142-146 | a setter name is `set` and a name without `_`, one character shorter than the property per `_` |
| SetterNames.SetterNameOfParts | RandomContentGenerator.php:142-146 | for `_`-joined parts, the setter concatenates the capitalised parts after `set` |
| SetterNames.SetterNameSinglePart | RandomContentGenerator.php:142-146 | a property without `_` gives `set` and the capitalised property |
| SetterNames.SetterNameTwoParts | RandomContentGenerator.php:142-146 | `a_b` gives `set`, capitalised `a` and capitalised `b` |
| SetterNames.SetterNameExample | RandomContentGenerator.php:142-146 | `image_url` gives `setImageUrl` |
| SetterNames.SetterNamesCollide | RandomContentGenerator.php:142-146 | `imageUrl` gives `setImageUrl` as well, so two properties can share one setter |
| ContentGenerator.RandomContentGenerator.constructor | RandomContentGenerator.php:21 | a fresh generator has the volume and no fields |
| ContentGenerator.RandomContentGenerator.Create | RandomContentGenerator.php:20-25 | construction succeeds exactly when every type string parses; the model then has the input keys in input order, each with its parsed descriptor; a failure carries the error of the first field that fails |
| ContentGenerator.RandomContentGenerator.Default | RandomContentGenerator.php:20 | the default arguments give `id`, `title`, `content`, `image` with their parsed descriptors and a volume of 20 |
| ContentGenerator.RandomContentGenerator.Fetch | RandomContentGenerator.php:170-191 | a record has the model's keys in the model's order, each with the render of choices its descriptor allows; the model is not changed |
| ContentGenerator.RandomContentGenerator.FetchAll | RandomContentGenerator.php:154-160 | `volume` records (none when the volume is below one), each a record of the model |
| ContentGenerator.ParsedFromUnique | RandomContentGenerator.php:22-24 | the fields determine the model |
| ContentGenerator.ParsedKeys | RandomContentGenerator.php:22-24 | a parsed model has the fields' keys, every field parses, and every descriptor is well formed |
| ContentGenerator.ParsedUpToFailure | RandomContentGenerator.php:22-24 | when every field before one parses and that one fails, it is the first failure and construction cannot succeed |
| ContentGenerator.DefaultModelParses | RandomContentGenerator.php:20 | the default fields parse to the default model |
| ContentGenerator.RecordOfUnique | RandomContentGenerator.php:170-191 | the random choices determine the record |

## Left out

- ParseOptions: the options of `f` are kept unparsed and always accepted, so `ParseType` accepts `f:` followed by anything. `_parseFloatOptions` (RandomContentGenerator.php:74-89) would refuse non-numeric or inverted options; it relies on `is_numeric` and float comparison, which are not modelled.
- `_generateFloatProp` (RandomContentGenerator.php:197-199): `lcg_value()` and floating-point scaling. A float field renders as a placeholder `FloatValue`.
- `fetchObj` and `fetchAllObj` (RandomContentGenerator.php:138-168): `new $class()`, `method_exists` and the dynamic call are runtime reflection on classes outside the program. Only the setter-name computation is modelled.
- The random number generators: `mt_rand` is an oracle constrained to its range, and `mt_getrandmax()` is the constant 2147483647. Uniformity and seeding are not modelled.
- Exception messages: each error variant carries the piece of input the message names, not the message text.
- Integer width: bounds and amounts are unbounded integers. PHP would read digit strings beyond 2^63 - 1 as floats, compare them approximately and pass them to `mt_rand`, which would reject them.
- Fetch: `_generateModel` overwrites the entries of a copy of the model in place through a reference. The model builds the record by appending pairs in the same order, so in-place update of the copy is not modelled.
- Create: requires distinct keys. A PHP array cannot hold a key twice. PHP's conversion of integer-like keys such as `"1"` to integers is not modelled.
- FetchAll: the volume is an integer. A non-integer `$volume` would be compared loosely by PHP's `<`.
- A fixed text length is stored as its value. PHP keeps the digit string and compares the loop counter with it numerically, which gives the same number of iterations.
- The empty options of `t` and `p` (`$optString` is `null`) are read as the empty string by `substr` and `explode`, so both fail, as they do in the code.
