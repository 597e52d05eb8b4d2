/** The fixed corpus every generated text is drawn from. */
module WordPool {
  import opened PhpStrings

  /** The 131 words of `WORDS_POOL`, in their declared order (written in
      slices of eight so that facts about single words stay cheap to prove). */
  const WORDS_POOL: seq<string> := POOL_00 + POOL_01 + POOL_02 + POOL_03 + POOL_04 + POOL_05 + POOL_06 + POOL_07 + POOL_08 + POOL_09 + POOL_10 + POOL_11 + POOL_12 + POOL_13 + POOL_14 + POOL_15 + POOL_16

  const POOL_00: seq<string> := ["lorem", "capicola", "tenderloin", "sunt", "elit", "turducken", "sirloin", "eu"]
  const POOL_01: seq<string> := ["ut", "pork", "chop", "est", "nisi", "cupim", "in", "culpa"]
  const POOL_02: seq<string> := ["adipisicing", "beef", "incididunt", "id", "buffalo", "ea", "spare", "ribs"]
  const POOL_03: seq<string> := ["t-bone", "meatball", "proident", "tail", "aute", "dolore", "tempor", "ipsum"]
  const POOL_04: seq<string> := ["consectetur", "frankfurter", "exercitation", "voluptate", "esse", "porchetta", "ground", "round"]
  const POOL_05: seq<string> := ["dolor", "excepteur", "quis", "cupidatat", "prosciutto", "aliqua", "leberkas", "meatloaf"]
  const POOL_06: seq<string> := ["fugiat", "ball", "tip", "kevin", "duis", "nulla", "magna", "jerky"]
  const POOL_07: seq<string> := ["qui", "deserunt", "sint", "sed", "turkey", "andouille", "officia", "anim"]
  const POOL_08: seq<string> := ["sausage", "do", "reprehenderit", "rump", "filet", "mignon", "veniam", "et"]
  const POOL_09: seq<string> := ["pig", "venison", "ad", "eiusmod", "flank", "doner", "labore", "minim"]
  const POOL_10: seq<string> := ["non", "kielbasa", "chuck", "laboris", "commodo", "mollit", "ex", "occaecat"]
  const POOL_11: seq<string> := ["swine", "biltong", "ham", "hock", "pariatur", "cillum", "belly", "salami"]
  const POOL_12: seq<string> := ["velit", "laborum", "pancetta", "shank", "strip", "steak", "drumstick", "tri-tip"]
  const POOL_13: seq<string> := ["short", "bacon", "ullamco", "jowl", "enim", "brisket", "burgdoggen", "picanha"]
  const POOL_14: seq<string> := ["cow", "alcatra", "shankle", "loin", "tongue", "aliquip", "nostrud", "bresaola"]
  const POOL_15: seq<string> := ["consequat", "boudin", "landjaeger", "fatback", "corned", "pastrami", "chicken", "ribeye"]
  const POOL_16: seq<string> := ["irure", "hamburger", "shoulder"]

  /** A pool word is non-empty, starts with a lower-case letter and holds neither a space
      nor a full stop, so words joined by spaces can be split apart again. */
  predicate IsPlainWord(w: string)
  {
    |w| > 0 && IsLower(w[0]) && ' ' !in w && '.' !in w
  }

  predicate AllPlain(ws: seq<string>)
  {
    forall i :: 0 <= i < |ws| ==> IsPlainWord(ws[i])
  }

  /** Every word in the list is a pool word. */
  predicate AllInPool(ws: seq<string>)
  {
    forall i :: 0 <= i < |ws| ==> ws[i] in WORDS_POOL
  }

  lemma PoolSize()
    ensures |WORDS_POOL| == 131
  {
  }

  lemma Slice00IsPlain()
    ensures AllPlain(POOL_00)
  {
  }

  lemma Slice01IsPlain()
    ensures AllPlain(POOL_01)
  {
  }

  lemma Slice02IsPlain()
    ensures AllPlain(POOL_02)
  {
  }

  lemma Slice03IsPlain()
    ensures AllPlain(POOL_03)
  {
  }

  lemma Slice04IsPlain()
    ensures AllPlain(POOL_04)
  {
  }

  lemma Slice05IsPlain()
    ensures AllPlain(POOL_05)
  {
  }

  lemma Slice06IsPlain()
    ensures AllPlain(POOL_06)
  {
  }

  lemma Slice07IsPlain()
    ensures AllPlain(POOL_07)
  {
  }

  lemma Slice08IsPlain()
    ensures AllPlain(POOL_08)
  {
  }

  lemma Slice09IsPlain()
    ensures AllPlain(POOL_09)
  {
  }

  lemma Slice10IsPlain()
    ensures AllPlain(POOL_10)
  {
  }

  lemma Slice11IsPlain()
    ensures AllPlain(POOL_11)
  {
  }

  lemma Slice12IsPlain()
    ensures AllPlain(POOL_12)
  {
  }

  lemma Slice13IsPlain()
    ensures AllPlain(POOL_13)
  {
  }

  lemma Slice14IsPlain()
    ensures AllPlain(POOL_14)
  {
  }

  lemma Slice15IsPlain()
    ensures AllPlain(POOL_15)
  {
  }

  lemma Slice16IsPlain()
    ensures AllPlain(POOL_16)
  {
  }

  lemma PoolIsPlain()
    ensures AllPlain(WORDS_POOL)
  {
    Slice00IsPlain();
    Slice01IsPlain();
    Slice02IsPlain();
    Slice03IsPlain();
    Slice04IsPlain();
    Slice05IsPlain();
    Slice06IsPlain();
    Slice07IsPlain();
    Slice08IsPlain();
    Slice09IsPlain();
    Slice10IsPlain();
    Slice11IsPlain();
    Slice12IsPlain();
    Slice13IsPlain();
    Slice14IsPlain();
    Slice15IsPlain();
    Slice16IsPlain();
  }

  lemma PoolWordIsPlain(w: string)
    requires w in WORDS_POOL
    ensures IsPlainWord(w)
  {
    PoolIsPlain();
  }
}
