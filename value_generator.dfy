/**
 * The value generator (`_generateIntProp`, `_generateTextProp`,
 * `_generateImageProp` and the dispatch of `_generateModel`).
 *
 * `mt_rand(min, max)` is an oracle whose draw is only known to lie in
 * [min, max]. A generated value is therefore specified by the random choices
 * behind it (a `Draw`): `Drawn(spec, d)` says which choices the descriptor
 * allows and `Render(spec, d)` is the value those choices produce.
 */
module ValueGenerator {
  import opened PhpStrings
  import opened WordPool
  import opened FieldSpecs

  /** `PICSUM_MAX_ID`: the largest picture id asked of picsum.photos. */
  const PICSUM_MAX_ID: int := 1000

  /** Every generated sentence holds between 4 and 17 words. */
  const SENTENCE_MIN_WORDS: int := 4
  const SENTENCE_MAX_WORDS: int := 17

  /** A generated field value. Float values are not modelled and carry nothing. */
  datatype Value = IntValue(n: int) | FloatValue | StringValue(s: string)

  /** The random choices behind one value: the drawn integer, the drawn words (one list
      per sentence for sentences), or the drawn picture id. */
  datatype Draw =
    | IntDraw(n: int)
    | FloatDraw
    | WordsDraw(words: seq<string>)
    | SentencesDraw(sentences: seq<seq<string>>)
    | ImageDraw(id: int)

  /** The number of words or sentences is the fixed length, or within the range. */
  predicate AmountAllows(amount: Amount, n: nat)
  {
    match amount
    case Fixed(length) => n == length
    case Range(min, max) => min <= n <= max
  }

  /** The words of one sentence: 4 to 17 pool words. */
  predicate SentenceWords(words: seq<string>)
  {
    SENTENCE_MIN_WORDS <= |words| <= SENTENCE_MAX_WORDS && AllInPool(words)
  }

  /** The choices `d` are ones the descriptor allows. */
  predicate Drawn(spec: FieldSpec, d: Draw)
  {
    match spec
    case IntSpec(min, max) => d.IntDraw? && min <= d.n <= max
    case FloatSpec(_) => d.FloatDraw?
    case TextSpec(Words, amount) =>
      d.WordsDraw? && AmountAllows(amount, |d.words|) && AllInPool(d.words)
    case TextSpec(Sentences, amount) =>
      && d.SentencesDraw? && AmountAllows(amount, |d.sentences|)
      && forall i :: 0 <= i < |d.sentences| ==> SentenceWords(d.sentences[i])
    case ImageSpec(_, _) => d.ImageDraw? && 0 <= d.id <= PICSUM_MAX_ID
  }

  /** A sentence before its full stop: the words joined by spaces, first character upper-cased. */
  function SentenceBody(words: seq<string>): string
  {
    UcFirst(Implode(" ", words))
  }

  /** One sentence: `ucfirst(implode(" ", $sentence)) . "."`. */
  function Sentence(words: seq<string>): (sentence: string)
    ensures |sentence| > 0 && sentence[|sentence| - 1] == '.'
  {
    SentenceBody(words) + "."
  }

  function SentenceList(sentences: seq<seq<string>>): (texts: seq<string>)
    ensures |texts| == |sentences|
  {
    seq(|sentences|, i requires 0 <= i < |sentences| => Sentence(sentences[i]))
  }

  /** The picture URL: width and height verbatim, then the id in decimal. */
  function ImageUrl(width: string, height: string, id: nat): (url: string)
    ensures |url| == |width| + |height| + |NatToString(id)| + 30
    ensures url[..22] == "https://picsum.photos/"
  {
    "https://picsum.photos/" + width + "/" + height + "?image=" + NatToString(id)
  }

  /** The value the choices `d` produce for the descriptor. */
  function Render(spec: FieldSpec, d: Draw): Value
    requires Drawn(spec, d)
  {
    match d
    case IntDraw(n) => IntValue(n)
    case FloatDraw => FloatValue
    case WordsDraw(words) => StringValue(Implode(" ", words))
    case SentencesDraw(sentences) => StringValue(Implode(" ", SentenceList(sentences)))
    case ImageDraw(id) => StringValue(ImageUrl(spec.width, spec.height, id))
  }

  /** `mt_rand(min, max)`: some integer in [min, max]; nothing else about it is known. */
  method MtRand(min: int, max: int) returns (r: int)
    requires min <= max
    ensures min <= r <= max
  {
    r :| min <= r <= max;
  }

  /** `self::WORDS_POOL[mt_rand(0, count(self::WORDS_POOL) - 1)]`. */
  method DrawWord() returns (word: string)
    ensures word in WORDS_POOL
  {
    PoolSize();
    var k := MtRand(0, |WORDS_POOL| - 1);
    word := WORDS_POOL[k];
  }

  /** `_generateIntProp`. */
  method GenerateIntProp(spec: FieldSpec) returns (n: int)
    requires spec.IntSpec? && WellFormed(spec)
    ensures spec.min <= n <= spec.max
  {
    n := MtRand(spec.min, spec.max);
  }

  /** `_generateTextProp`: the amount, then that many words, or that many sentences of
      4 to 17 words each. */
  method GenerateTextProp(spec: FieldSpec) returns (text: string, ghost d: Draw)
    requires spec.TextSpec? && WellFormed(spec)
    ensures Drawn(spec, d) && StringValue(text) == Render(spec, d)
  {
    var amount: nat;
    if spec.amount.Range? {
      var r := MtRand(spec.amount.min, spec.amount.max);
      amount := r;
    } else {
      amount := spec.amount.length;
    }

    if spec.unit == Words {
      var sentence: seq<string> := [];
      for i := 0 to amount
        invariant |sentence| == i && AllInPool(sentence)
      {
        var word := DrawWord();
        sentence := sentence + [word];
      }
      text := Implode(" ", sentence);
      d := WordsDraw(sentence);
      return;
    }

    var sentences: seq<string> := [];
    ghost var drawn: seq<seq<string>> := [];
    for i := 0 to amount
      invariant |drawn| == i && |sentences| == i
      invariant forall k :: 0 <= k < i ==> SentenceWords(drawn[k]) && sentences[k] == Sentence(drawn[k])
    {
      var sentence: seq<string> := [];
      var currentSentenceLength := MtRand(SENTENCE_MIN_WORDS, SENTENCE_MAX_WORDS);
      for j := 0 to currentSentenceLength
        invariant |sentence| == j && AllInPool(sentence)
      {
        var word := DrawWord();
        sentence := sentence + [word];
      }
      sentences := sentences + [UcFirst(Implode(" ", sentence)) + "."];
      drawn := drawn + [sentence];
    }
    assert sentences == SentenceList(drawn);
    text := Implode(" ", sentences);
    d := SentencesDraw(drawn);
  }

  /** `_generateImageProp`. */
  method GenerateImageProp(spec: FieldSpec) returns (url: string, ghost d: Draw)
    requires spec.ImageSpec? && WellFormed(spec)
    ensures Drawn(spec, d) && StringValue(url) == Render(spec, d)
  {
    var id := MtRand(0, PICSUM_MAX_ID);
    url := "https://picsum.photos/" + spec.width + "/" + spec.height + "?image=" + NatToString(id);
    d := ImageDraw(id);
  }

  /** One field of `_generateModel`: the generator the descriptor's kind selects. */
  method GenerateValue(spec: FieldSpec) returns (v: Value, ghost d: Draw)
    requires WellFormed(spec)
    ensures Drawn(spec, d) && v == Render(spec, d)
  {
    match spec
    case IntSpec(_, _) =>
      var n := GenerateIntProp(spec);
      v, d := IntValue(n), IntDraw(n);
    case FloatSpec(_) =>
      v, d := FloatValue, FloatDraw;
    case TextSpec(_, _) =>
      var text;
      text, d := GenerateTextProp(spec);
      v := StringValue(text);
    case ImageSpec(_, _) =>
      var url;
      url, d := GenerateImageProp(spec);
      v := StringValue(url);
  }
}
