/**
 * The generator object: `__construct` parses one type string per field into
 * the `model` field, `fetch` (through `_generateModel`) produces one record
 * with a value per field, and `fetchAll` produces `volume` records.
 *
 * A record is a list of (key, value) pairs in the model's order, as the PHP
 * array keeps its insertion order.
 */
module ContentGenerator {
  import opened Wrappers
  import opened FieldSpecs
  import opened ValueGenerator

  /** The keys of a list of pairs, in order. */
  function Keys<V>(entries: seq<(string, V)>): seq<string>
  {
    seq(|entries|, i requires 0 <= i < |entries| => entries[i].0)
  }

  /** No key occurs twice, as in a PHP array. */
  predicate Distinct(keys: seq<string>)
  {
    forall i, j :: 0 <= i < j < |keys| ==> keys[i] != keys[j]
  }

  /** Every field's type string parses. */
  predicate AllParse(fields: seq<(string, string)>)
  {
    forall i :: 0 <= i < |fields| ==> ParseType(fields[i].1).Success?
  }

  /** `model` holds the keys of `fields` in their order, each with the descriptor its type
      string parses to. */
  predicate ParsedFrom(model: seq<(string, FieldSpec)>, fields: seq<(string, string)>)
  {
    && |model| == |fields|
    && forall i :: 0 <= i < |fields| ==>
         model[i].0 == fields[i].0 && ParseType(fields[i].1) == Success(model[i].1)
  }

  /** Field `k` is the first whose type string fails, and it fails with `e`. */
  predicate FirstFailure(fields: seq<(string, string)>, k: int, e: ParseError)
  {
    && 0 <= k < |fields|
    && (forall i :: 0 <= i < k ==> ParseType(fields[i].1).Success?)
    && ParseType(fields[k].1) == Failure(e)
  }

  /** `record` is a record of `model` made from the random choices `draws`: the model's
      keys in order, each with the value its descriptor renders from its choices. */
  predicate RecordOf(model: seq<(string, FieldSpec)>, record: seq<(string, Value)>, draws: seq<Draw>)
  {
    && |record| == |model| && |draws| == |model|
    && forall i :: 0 <= i < |model| ==>
         && record[i].0 == model[i].0
         && Drawn(model[i].1, draws[i])
         && record[i].1 == Render(model[i].1, draws[i])
  }

  /** The default model of the constructor. */
  const DEFAULT_FIELDS: seq<(string, string)> :=
    [("id", "i"), ("title", "t:4-6w"), ("content", "t:5s"), ("image", "p:400*300")]

  /** The default number of records. */
  const DEFAULT_VOLUME: int := 20

  /** What the default model parses to. */
  const DEFAULT_MODEL: seq<(string, FieldSpec)> :=
    [ ("id", IntSpec(0, MT_RAND_MAX)),
      ("title", TextSpec(Words, Range(4, 6))),
      ("content", TextSpec(Sentences, Fixed(5))),
      ("image", ImageSpec("400", "300")) ]

  class RandomContentGenerator {
    /** How many records `FetchAll` returns; any integer, as PHP does not check it. */
    var volume: int
    /** The parsed descriptor of every field, in the order the fields were given. */
    var model: seq<(string, FieldSpec)>

    /** The keys are distinct and every descriptor is one the parser can return. */
    ghost predicate Valid()
      reads this
    {
      Distinct(Keys(model)) && forall i :: 0 <= i < |model| ==> WellFormed(model[i].1)
    }

    /** A generator for `volume` records with no fields yet. */
    constructor (volume: int)
      ensures this.volume == volume && model == [] && Valid()
    {
      this.volume := volume;
      model := [];
    }

    /** `__construct($model, $volume)`: the fields' type strings parsed in order. It fails
        exactly when some type string fails, with the error of the first one that does. */
    static method Create(fields: seq<(string, string)>, volume: int)
      returns (r: Result<RandomContentGenerator, ParseError>)
      requires Distinct(Keys(fields))
      ensures r.Success? <==> AllParse(fields)
      ensures r.Success? ==> && r.value.Valid() && r.value.volume == volume
                             && ParsedFrom(r.value.model, fields)
      ensures r.Failure? ==> exists k :: FirstFailure(fields, k, r.error)
    {
      var g := new RandomContentGenerator(volume);
      for i := 0 to |fields|
        invariant g.volume == volume && ParsedFrom(g.model, fields[..i])
      {
        var parsed := ParseType(fields[i].1);
        if parsed.Failure? {
          r := Failure(parsed.error);
          ParsedUpToFailure(g.model, fields, i, r.error);
          return;
        }
        ParsedFromExtend(g.model, fields, i, parsed.value);
        g.model := g.model + [(fields[i].0, parsed.value)];
      }
      assert fields[..|fields|] == fields;
      ParsedKeys(g.model, fields);
      r := Success(g);
    }

    /** `new RandomContentGenerator()`: the default model and 20 records. */
    static method Default() returns (g: RandomContentGenerator)
      ensures g.Valid() && g.volume == DEFAULT_VOLUME && g.model == DEFAULT_MODEL
    {
      assert AllParse(DEFAULT_FIELDS) by {
        DefaultModelParses();
        ParsedKeys(DEFAULT_MODEL, DEFAULT_FIELDS);
      }
      assert Distinct(Keys(DEFAULT_FIELDS)) by {
        assert Keys(DEFAULT_FIELDS) == ["id", "title", "content", "image"];
        assert "title"[0] != "image"[0];
        DistinctFour("id", "title", "content", "image");
      }
      var r := Create(DEFAULT_FIELDS, DEFAULT_VOLUME);
      g := r.value;
      assert g.model == DEFAULT_MODEL by {
        DefaultModelParses();
        ParsedFromUnique(g.model, DEFAULT_MODEL, DEFAULT_FIELDS);
      }
    }

    /** `fetch()`, that is `_generateModel()`: one record of the model, which is left as
        it is. */
    method Fetch() returns (record: seq<(string, Value)>, ghost draws: seq<Draw>)
      requires Valid()
      ensures RecordOf(model, record, draws)
    {
      record := [];
      draws := [];
      for i := 0 to |model|
        invariant RecordOf(model[..i], record, draws)
      {
        var v, d := GenerateValue(model[i].1);
        record := record + [(model[i].0, v)];
        draws := draws + [d];
      }
      assert model[..|model|] == model;
    }

    /** `fetchAll()`: `volume` records, none for a volume below one. */
    method FetchAll() returns (records: seq<seq<(string, Value)>>, ghost draws: seq<seq<Draw>>)
      requires Valid()
      ensures |records| == (if volume > 0 then volume else 0) && |draws| == |records|
      ensures forall k :: 0 <= k < |records| ==> RecordOf(model, records[k], draws[k])
    {
      records := [];
      draws := [];
      var i := 0;
      while i < volume
        invariant 0 <= i && (volume > 0 ==> i <= volume) && (volume <= 0 ==> i == 0)
        invariant |records| == i && |draws| == i
        invariant forall k :: 0 <= k < i ==> RecordOf(model, records[k], draws[k])
        decreases volume - i
      {
        var record;
        ghost var d;
        record, d := Fetch();
        records := records + [record];
        draws := draws + [d];
        i := i + 1;
      }
    }
  }

  /** The fields determine the model: two models parsed from the same fields are equal. */
  lemma ParsedFromUnique(m1: seq<(string, FieldSpec)>, m2: seq<(string, FieldSpec)>, fields: seq<(string, string)>)
    requires ParsedFrom(m1, fields) && ParsedFrom(m2, fields)
    ensures m1 == m2
  {
    forall i | 0 <= i < |m1|
      ensures m1[i] == m2[i]
    {
      assert Success(m1[i].1) == ParseType(fields[i].1) == Success(m2[i].1);
    }
  }

  /** Parsing one more field extends the model by that field's key and descriptor. */
  lemma ParsedFromExtend(model: seq<(string, FieldSpec)>, fields: seq<(string, string)>, i: int, spec: FieldSpec)
    requires 0 <= i < |fields| && ParsedFrom(model, fields[..i])
    requires ParseType(fields[i].1) == Success(spec)
    ensures ParsedFrom(model + [(fields[i].0, spec)], fields[..i + 1])
  {
    assert fields[..i + 1] == fields[..i] + [fields[i]];
  }

  /** A parsed model keeps the fields' keys, every field parses, and every descriptor is
      well formed. */
  lemma ParsedKeys(model: seq<(string, FieldSpec)>, fields: seq<(string, string)>)
    requires ParsedFrom(model, fields)
    ensures Keys(model) == Keys(fields)
    ensures AllParse(fields)
    ensures forall i :: 0 <= i < |model| ==> WellFormed(model[i].1)
  {
  }

  /** When the fields before `i` parsed and field `i` fails with `e`, not every field
      parses and `i` is the first failure. */
  lemma ParsedUpToFailure(model: seq<(string, FieldSpec)>, fields: seq<(string, string)>, i: int, e: ParseError)
    requires 0 <= i < |fields| && ParsedFrom(model, fields[..i])
    requires ParseType(fields[i].1) == Failure(e)
    ensures FirstFailure(fields, i, e) && !AllParse(fields)
  {
    forall k | 0 <= k < i
      ensures ParseType(fields[k].1).Success?
    {
      assert fields[..i][k] == fields[k];
    }
  }

  /** The default fields parse to the default model. */
  lemma DefaultModelParses()
    ensures ParsedFrom(DEFAULT_MODEL, DEFAULT_FIELDS)
  {
    BareTypeCode("i");
    DefaultTitleType();
    DefaultContentType();
    DefaultImageType();
    ParsedFromFour(
      ("id", IntSpec(0, MT_RAND_MAX)), ("title", TextSpec(Words, Range(4, 6))),
      ("content", TextSpec(Sentences, Fixed(5))), ("image", ImageSpec("400", "300")),
      ("id", "i"), ("title", "t:4-6w"), ("content", "t:5s"), ("image", "p:400*300"));
  }

  /** Four pairwise different keys are distinct. */
  lemma DistinctFour(a: string, b: string, c: string, d: string)
    requires a != b && a != c && a != d && b != c && b != d && c != d
    ensures Distinct([a, b, c, d])
  {
  }

  /** Four fields, each parsed, make a four-field model. */
  lemma ParsedFromFour(a: (string, FieldSpec), b: (string, FieldSpec), c: (string, FieldSpec), d: (string, FieldSpec),
                       fa: (string, string), fb: (string, string), fc: (string, string), fd: (string, string))
    requires a.0 == fa.0 && ParseType(fa.1) == Success(a.1)
    requires b.0 == fb.0 && ParseType(fb.1) == Success(b.1)
    requires c.0 == fc.0 && ParseType(fc.1) == Success(c.1)
    requires d.0 == fd.0 && ParseType(fd.1) == Success(d.1)
    ensures ParsedFrom([a, b, c, d], [fa, fb, fc, fd])
  {
  }

  /** The draws determine the record: two records of one model from the same choices are equal. */
  lemma RecordOfUnique(model: seq<(string, FieldSpec)>, r1: seq<(string, Value)>, r2: seq<(string, Value)>, draws: seq<Draw>)
    requires RecordOf(model, r1, draws) && RecordOf(model, r2, draws)
    ensures r1 == r2
  {
    forall i | 0 <= i < |r1|
      ensures r1[i] == r2[i]
    {
    }
  }
}
