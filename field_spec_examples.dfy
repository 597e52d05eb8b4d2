/** Type strings on either side of each check the parser makes, and the cases it refuses. */
module FieldSpecExamples {
  import opened Wrappers
  import opened PhpStrings
  import opened FieldSpecs

  /** Unknown codes, the empty string included, are refused; `f` alone is a float field. */
  lemma CodeExamples()
    ensures ParseType("x") == Failure(UnsupportedType("x"))
    ensures ParseType("") == Failure(UnsupportedType(""))
    ensures ParseType("f") == Success(FloatSpec(None))
  {
    BareTypeCode("x");
    BareTypeCode("");
    BareTypeCode("f");
  }

  /** The code is the whole text before the first `:`, not its first letter. */
  lemma LongCodeExample()
    ensures ParseType("int:1-2") == Failure(UnsupportedType("int"))
  {
    ExplodePair(':', "int", "1-2", "");
    assert "int" + [':'] + "1-2" + "" == "int:1-2";
  }

  /** `i` is the default range; `i:` (empty options) and `i:5` (no upper bound) are refused. */
  lemma IntDefaultExamples()
    ensures ParseType("i") == Success(IntSpec(0, MT_RAND_MAX))
    ensures ParseType("i:") == Failure(InvalidIntOptions(""))
    ensures ParseType("i:5") == Failure(InvalidIntOptions("5"))
  {
    BareTypeCode("i");
    ExplodePair(':', "i", "", "");
    assert "i" + [':'] + "" + "" == "i:";
    ExplodePair(':', "i", "5", "");
    assert "i" + [':'] + "5" + "" == "i:5";
    ExplodeNoSeparator('-', "5");
  }

  /** An empty upper bound is not a digit string: `i:5-` is refused. */
  lemma IntEmptyMaxExample()
    ensures ParseType("i:5-") == Failure(InvalidIntOptions("5-"))
  {
    ExplodePair(':', "i", "5-", "");
    assert "i" + [':'] + "5-" + "" == "i:5-";
    ExplodePair('-', "5", "", "");
    assert "5" + ['-'] + "" + "" == "5-";
  }

  /** A range is read as written. */
  lemma IntRangeExample()
    ensures ParseType("i:3-9") == Success(IntSpec(3, 9))
  {
    assert DigitsValue("3") == 3 && DigitsValue("9") == 9 by {
      assert "3"[..0] == [] && "9"[..0] == [];
    }
    IntTypeString("3", "9", "");
    assert "i:" + "3" + "-" + "9" + "" == "i:3-9";
  }

  /** An inverted range is refused. */
  lemma IntInvertedExample()
    ensures ParseType("i:5-1") == Failure(InvalidIntOptions("5-1"))
  {
    assert DigitsValue("5") == 5 && DigitsValue("1") == 1 by {
      assert "5"[..0] == [] && "1"[..0] == [];
    }
    IntTypeString("5", "1", "");
    assert "i:" + "5" + "-" + "1" + "" == "i:5-1";
    assert "5" + "-" + "1" + "" == "5-1";
  }

  /** Pieces after the second are ignored. */
  lemma IntExtraPieceExample()
    ensures ParseType("i:1-2-3") == Success(IntSpec(1, 2))
  {
    assert DigitsValue("1") == 1 && DigitsValue("2") == 2 by {
      assert "1"[..0] == [] && "2"[..0] == [];
    }
    IntTypeString("1", "2", "-3");
    assert "i:" + "1" + "-" + "2" + "-3" == "i:1-2-3";
  }

  /** An unknown unit and `t` without options are refused. */
  lemma TextRefusedExamples()
    ensures ParseType("t:5z") == Failure(InvalidTextUnit("z"))
    ensures ParseType("t") == Failure(InvalidTextUnit(""))
  {
    ExplodePair(':', "t", "5z", "");
    assert "t" + [':'] + "5z" + "" == "t:5z";
    BareTypeCode("t");
  }

  /** A valid unit after an empty length (`t:w`) or after an empty upper bound (`t:5-w`)
      is refused as invalid text options. */
  lemma TextEmptyLengthExamples()
    ensures ParseType("t:w") == Failure(InvalidTextOptions("w"))
    ensures ParseType("t:5-w") == Failure(InvalidTextOptions("5-w"))
  {
    ExplodePair(':', "t", "w", "");
    assert "t" + [':'] + "w" + "" == "t:w";
    assert "w"[..0] == [];
    ExplodePair(':', "t", "5-w", "");
    assert "t" + [':'] + "5-w" + "" == "t:5-w";
    assert "5-w"[..2] == "5-";
    ExplodePair('-', "5", "", "");
    assert "5" + ['-'] + "" + "" == "5-";
  }

  /** An inverted text range is refused. */
  lemma TextInvertedExample()
    ensures ParseType("t:6-4w") == Failure(InvalidTextOptions("6-4w"))
  {
    assert DigitsValue("6") == 6 && DigitsValue("4") == 4 by {
      assert "6"[..0] == [] && "4"[..0] == [];
    }
    TextRangeTypeString("6", "4", 'w');
    assert "t:" + "6" + "-" + "4" + ['w'] == "t:6-4w";
    assert "6" + "-" + "4" + ['w'] == "6-4w";
  }

  /** Width and height are kept verbatim, zero and leading zeros included. */
  lemma ImageZeroExample()
    ensures ParseType("p:0*007") == Success(ImageSpec("0", "007"))
  {
    ImageTypeString("0", "007");
    assert "p:" + "0" + "*" + "007" == "p:0*007";
  }

  /** `p` without options and a size without `*` are refused. */
  lemma ImageRefusedExamples()
    ensures ParseType("p") == Failure(InvalidImageOptions(""))
    ensures ParseType("p:400x300") == Failure(InvalidImageOptions("400x300"))
  {
    BareTypeCode("p");
    ExplodePair(':', "p", "400x300", "");
    assert "p" + [':'] + "400x300" + "" == "p:400x300";
    ExplodeNoSeparator('*', "400x300");
  }

  /** An empty height is not a digit string: `p:400*` is refused. */
  lemma ImageEmptyHeightExample()
    ensures ParseType("p:400*") == Failure(InvalidImageOptions("400*"))
  {
    ExplodePair(':', "p", "400*", "");
    assert "p" + [':'] + "400*" + "" == "p:400*";
    ExplodePair('*', "400", "", "");
    assert "400" + ['*'] + "" + "" == "400*";
  }
}
