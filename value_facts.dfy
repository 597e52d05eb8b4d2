/**
 * What the generated values look like, for every possible draw: word texts
 * split back into their pool words, sentence texts split back into their
 * sentences, each capitalised and ending in a full stop, and picture URLs
 * split back into width, height and id.
 */
module ValueFacts {
  import opened PhpStrings
  import opened WordPool
  import opened FieldSpecs
  import opened ValueGenerator

  /** `ucfirst` adds no character other than an upper-case letter. */
  lemma UcFirstAvoids(c: char, s: string)
    requires c !in s && !IsUpper(c)
    ensures c !in UcFirst(s)
  {
  }

  /** `ucfirst` of a join is the join with the first part's first character upper-cased. */
  lemma {:induction false} UcFirstImplode(sep: string, parts: seq<string>)
    requires |parts| >= 1 && |parts[0]| > 0
    ensures UcFirst(Implode(sep, parts)) == Implode(sep, parts[0 := UcFirst(parts[0])])
  {
    var up := parts[0 := UcFirst(parts[0])];
    if |parts| > 1 {
      var p := parts[0];
      var tail := sep + Implode(sep, parts[1..]);
      assert Implode(sep, up) == UcFirst(p) + tail by {
        assert up[1..] == parts[1..];
      }
      assert Implode(sep, parts) == p + tail;
      assert UcFirst(p + tail) == UcFirst(p) + tail by {
        assert (p + tail)[0] == p[0];
        assert (p + tail)[1..] == p[1..] + tail;
      }
    }
  }

  /** Pool words hold no space. */
  lemma PoolWordsHaveNoSpace(words: seq<string>)
    requires AllInPool(words)
    ensures forall i :: 0 <= i < |words| ==> IsPlainWord(words[i])
  {
    forall i | 0 <= i < |words|
      ensures IsPlainWord(words[i])
    {
      PoolWordIsPlain(words[i]);
    }
  }

  /** A word text is empty for no words, and otherwise splits on spaces into exactly the
      drawn pool words, in order. */
  lemma {:induction false} WordsTextSplits(words: seq<string>)
    requires AllInPool(words)
    ensures words == [] ==> Implode(" ", words) == ""
    ensures words != [] ==> Explode(' ', Implode(" ", words)) == words
  {
    if words != [] {
      PoolWordsHaveNoSpace(words);
      ExplodeImplode(' ', words);
    }
  }

  /** A join starts with the first character of its first part. */
  lemma ImplodeStart(sep: string, parts: seq<string>)
    requires |parts| >= 1 && |parts[0]| > 0
    ensures |Implode(sep, parts)| > 0 && Implode(sep, parts)[0] == parts[0][0]
  {
    if |parts| > 1 {
      assert Implode(sep, parts) == parts[0] + (sep + Implode(sep, parts[1..]));
    }
  }

  /** The words of a sentence body: the drawn words with the first one capitalised; none
      holds a space or a full stop and the first starts with an upper-case letter. */
  lemma {:induction false} SentenceBodyWords(words: seq<string>)
    requires SentenceWords(words)
    ensures var up := words[0 := UcFirst(words[0])];
      && SentenceBody(words) == Implode(" ", up)
      && |up[0]| > 0 && IsUpper(up[0][0])
      && forall i :: 0 <= i < |up| ==> ' ' !in up[i] && '.' !in up[i]
  {
    PoolWordsHaveNoSpace(words);
    UcFirstImplode(" ", words);
    UcFirstAvoids(' ', words[0]);
    UcFirstAvoids('.', words[0]);
  }

  /** One sentence: an upper-case first character, a full stop at the end and nowhere else,
      and a body that splits on spaces into the drawn words, the first one capitalised. */
  lemma {:induction false} SentenceShape(words: seq<string>)
    requires SentenceWords(words)
    ensures var s := Sentence(words);
      && |s| >= 2 && IsUpper(s[0]) && s[|s| - 1] == '.'
      && s[..|s| - 1] == SentenceBody(words)
      && '.' !in SentenceBody(words)
      && Explode(' ', SentenceBody(words)) == words[0 := UcFirst(words[0])]
  {
    var up := words[0 := UcFirst(words[0])];
    SentenceBodyWords(words);
    ImplodeAvoids('.', " ", up);
    ExplodeImplode(' ', up);
    ImplodeStart(" ", up);
  }

  /** The body of a sentence holds no full stop. */
  lemma BodyHasNoStop(words: seq<string>)
    requires SentenceWords(words)
    ensures '.' !in SentenceBody(words)
  {
    SentenceShape(words);
  }

  /** The sentence text is the first sentence, then a space and the text of the rest. */
  lemma SentenceTextCons(sentences: seq<seq<string>>)
    requires |sentences| >= 1
    ensures |sentences| == 1 ==> Implode(" ", SentenceList(sentences)) == Sentence(sentences[0])
    ensures |sentences| > 1 ==>
      (Implode(" ", SentenceList(sentences))
       == Sentence(sentences[0]) + " " + Implode(" ", SentenceList(sentences[1..])))
  {
    if |sentences| > 1 {
      assert SentenceList(sentences)[1..] == SentenceList(sentences[1..]);
    }
  }

  /** The text after the first full stop of a sentence text: empty for one sentence,
      otherwise the joining space and the text of the rest. */
  function TailText(sentences: seq<seq<string>>): string
    requires |sentences| >= 1
  {
    if |sentences| == 1 then [] else " " + Implode(" ", SentenceList(sentences[1..]))
  }

  /** Exploding `lead` followed by a sentence text on `.` gives `lead` and the first body,
      then the pieces of what follows the first full stop. */
  lemma SentencesStep(lead: string, sentences: seq<seq<string>>)
    requires '.' !in lead && |sentences| >= 1 && '.' !in SentenceBody(sentences[0])
    ensures Explode('.', lead + Implode(" ", SentenceList(sentences)))
      == [lead + SentenceBody(sentences[0])] + Explode('.', TailText(sentences))
  {
    var body := SentenceBody(sentences[0]);
    var first := lead + body;
    var tail := TailText(sentences);
    assert Implode(" ", SentenceList(sentences)) == body + ['.'] + tail by {
      SentenceTextCons(sentences);
      assert Sentence(sentences[0]) == body + ['.'];
    }
    assert lead + (body + ['.'] + tail) == first + ['.'] + tail;
    assert Explode('.', first + ['.'] + tail) == [first] + Explode('.', tail) by {
      ExplodeNoSeparator('.', first);
      ExplodeAppend('.', first, tail);
    }
  }

  /** Exploding `lead` followed by the sentence text on `.` gives `lead` and the first
      body, then each further body after its separating space, then the empty piece after
      the last full stop. */
  lemma {:induction false} SentencesSplitFrom(lead: string, sentences: seq<seq<string>>)
    requires '.' !in lead && |sentences| >= 1
    requires forall i :: 0 <= i < |sentences| ==> '.' !in SentenceBody(sentences[i])
    ensures var pieces := Explode('.', lead + Implode(" ", SentenceList(sentences)));
      && |pieces| == |sentences| + 1
      && pieces[0] == lead + SentenceBody(sentences[0])
      && (forall i :: 1 <= i < |sentences| ==> pieces[i] == " " + SentenceBody(sentences[i]))
      && pieces[|sentences|] == ""
    decreases |sentences|
  {
    var pieces := Explode('.', lead + Implode(" ", SentenceList(sentences)));
    var later := Explode('.', TailText(sentences));
    SentencesStep(lead, sentences);
    if |sentences| == 1 {
      ExplodeNoSeparator('.', []);
    } else {
      var rest := sentences[1..];
      SentencesSplitFrom(" ", rest);
      forall i | 1 <= i < |sentences|
        ensures pieces[i] == " " + SentenceBody(sentences[i])
      {
        assert pieces[i] == later[i - 1];
        assert rest[i - 1] == sentences[i];
      }
      assert pieces[|sentences|] == later[|rest|];
    }
  }

  /** A sentence text is empty for no sentences, and otherwise splits on `.` into exactly
      the drawn sentences (their bodies, each after the first preceded by the joining
      space) and the empty text after the final full stop. */
  lemma {:induction false} SentencesTextSplits(sentences: seq<seq<string>>)
    requires forall i :: 0 <= i < |sentences| ==> SentenceWords(sentences[i])
    ensures sentences == [] ==> Implode(" ", SentenceList(sentences)) == ""
    ensures sentences != [] ==> var pieces := Explode('.', Implode(" ", SentenceList(sentences)));
      && |pieces| == |sentences| + 1
      && pieces[0] == SentenceBody(sentences[0])
      && (forall i :: 1 <= i < |sentences| ==> pieces[i] == " " + SentenceBody(sentences[i]))
      && pieces[|sentences|] == ""
  {
    if sentences != [] {
      forall i | 0 <= i < |sentences|
        ensures '.' !in SentenceBody(sentences[i])
      {
        BodyHasNoStop(sentences[i]);
      }
      SentencesSplitFrom("", sentences);
      assert "" + Implode(" ", SentenceList(sentences)) == Implode(" ", SentenceList(sentences));
    }
  }

  /** Five separator-free texts joined by `c` explode back into those five texts. */
  lemma ExplodeFive(c: char, a: string, b: string, e: string, f: string, g: string)
    requires c !in a && c !in b && c !in e && c !in f && c !in g
    ensures Explode(c, a + [c] + b + [c] + e + [c] + f + [c] + g) == [a, b, e, f, g]
  {
    ExplodeNoSeparator(c, a);
    var p2 := a + [c] + b;
    assert Explode(c, p2) == [a, b] by {
      ExplodeNoSeparator(c, b);
      ExplodeAppend(c, a, b);
    }
    var p3 := p2 + [c] + e;
    assert Explode(c, p3) == [a, b, e] by {
      ExplodeNoSeparator(c, e);
      ExplodeAppend(c, p2, e);
    }
    var p4 := p3 + [c] + f;
    assert Explode(c, p4) == [a, b, e, f] by {
      ExplodeNoSeparator(c, f);
      ExplodeAppend(c, p3, f);
    }
    ExplodeNoSeparator(c, g);
    ExplodeAppend(c, p4, g);
  }

  /** The host part of a picture URL, written with its separators apart. */
  lemma UrlPrefix()
    ensures "https://picsum.photos/" == "https:" + ['/'] + [] + ['/'] + "picsum.photos" + ['/']
    ensures "?image=" == "?image" + ['=']
  {
  }

  /** A picture URL splits on `/` into the scheme, the host, the width verbatim and the
      height verbatim followed by the query. */
  lemma ImageUrlSlashes(width: string, height: string, id: nat)
    requires CtypeDigit(width) && CtypeDigit(height)
    ensures Explode('/', ImageUrl(width, height, id))
      == ["https:", "", "picsum.photos", width, height + "?image=" + NatToString(id)]
  {
    var query := height + "?image=" + NatToString(id);
    assert '/' !in query by {
      DigitsHoldNo('/', height);
      DigitsHoldNo('/', NatToString(id));
      assert '/' !in "?image=";
    }
    assert '/' !in "https:" && '/' !in "picsum.photos";
    DigitsHoldNo('/', width);
    assert ImageUrl(width, height, id)
      == "https:" + ['/'] + [] + ['/'] + "picsum.photos" + ['/'] + width + ['/'] + query
    by {
      UrlPrefix();
    }
    ExplodeFive('/', "https:", [], "picsum.photos", width, query);
  }

  /** After the `=` of a picture URL comes the id in decimal, and it reads back as the id. */
  lemma ImageUrlId(width: string, height: string, id: nat)
    requires CtypeDigit(width) && CtypeDigit(height)
    ensures Explode('=', ImageUrl(width, height, id))
      == ["https://picsum.photos/" + width + "/" + height + "?image", NatToString(id)]
    ensures DigitsValue(NatToString(id)) == id
  {
    var front := "https://picsum.photos/" + width + "/" + height + "?image";
    assert '=' !in front by {
      DigitsHoldNo('=', width);
      DigitsHoldNo('=', height);
      assert '=' !in "https://picsum.photos/" && '=' !in "?image" && '=' !in "/";
    }
    DigitsHoldNo('=', NatToString(id));
    assert ImageUrl(width, height, id) == front + ['='] + NatToString(id) by {
      UrlPrefix();
    }
    ExplodeNoSeparator('=', front);
    ExplodeNoSeparator('=', NatToString(id));
    ExplodeAppend('=', front, NatToString(id));
    NatToStringValue(id);
  }
}
