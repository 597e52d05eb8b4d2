/**
 * The setter name `fetchObj` derives from a property name: the property is
 * split on `_`, every part gets its first character upper-cased, and the parts
 * are concatenated after `set` (`image_url` becomes `setImageUrl`).
 */
module SetterNames {
  import opened PhpStrings

  /** `array_walk($words, fn(&$word) => $word = ucfirst($word))`. */
  function UcFirstAll(parts: seq<string>): (ups: seq<string>)
    ensures |ups| == |parts|
    ensures forall i :: 0 <= i < |parts| ==> ups[i] == UcFirst(parts[i])
    decreases |parts|
  {
    if parts == [] then [] else [UcFirst(parts[0])] + UcFirstAll(parts[1..])
  }

  /** `"set" . implode('', $words)` for the parts of `explode('_', $prop)`. */
  function SetterName(prop: string): (setter: string)
    ensures |setter| >= 3 && setter[0] == 's' && setter[1] == 'e' && setter[2] == 't'
  {
    "set" + Implode("", UcFirstAll(Explode('_', prop)))
  }

  /** The total number of characters in `parts`. */
  function TotalLength(parts: seq<string>): nat
    decreases |parts|
  {
    if parts == [] then 0 else |parts[0]| + TotalLength(parts[1..])
  }

  /** Joining with a one-character separator adds one character between neighbours. */
  lemma {:induction false} ImplodeLength(sep: string, parts: seq<string>)
    requires |sep| <= 1 && |parts| >= 1
    ensures |Implode(sep, parts)| == TotalLength(parts) + (|parts| - 1) * |sep|
    decreases |parts|
  {
    if |parts| > 1 {
      ImplodeLength(sep, parts[1..]);
    }
  }

  /** `explode` yields one piece more than there are separators. */
  lemma {:induction false} ExplodeCount(c: char, s: string)
    ensures |Explode(c, s)| == CountChar(c, s) + 1
    decreases |s|
  {
    if s != [] {
      ExplodeCount(c, s[1..]);
    }
  }

  /** Upper-casing the first character of every part keeps the total length. */
  lemma {:induction false} UcFirstAllLength(parts: seq<string>)
    ensures TotalLength(UcFirstAll(parts)) == TotalLength(parts)
    decreases |parts|
  {
    if parts != [] {
      UcFirstAllLength(parts[1..]);
      assert UcFirstAll(parts)[1..] == UcFirstAll(parts[1..]);
    }
  }

  /** A setter name is `set` followed by a name without `_`, one character shorter than
      the property for every `_` it held. */
  lemma SetterNameShape(prop: string)
    ensures var setter := SetterName(prop);
      && |setter| == 3 + |prop| - CountChar('_', prop)
      && setter[..3] == "set"
      && '_' !in setter[3..]
  {
    var parts := Explode('_', prop);
    var ups := UcFirstAll(parts);
    var name := Implode("", ups);
    assert SetterName(prop)[3..] == name;
    forall i | 0 <= i < |ups|
      ensures '_' !in ups[i]
    {
      assert '_' !in parts[i];
    }
    ImplodeAvoids('_', "", ups);
    ImplodeLength("", ups);
    UcFirstAllLength(parts);
    ImplodeExplode('_', prop);
    ImplodeLength("_", parts);
    ExplodeCount('_', prop);
  }

  /** For a property written as `_`-joined parts, the setter concatenates the parts, each
      with its first character upper-cased. */
  lemma SetterNameOfParts(parts: seq<string>)
    requires |parts| >= 1
    requires forall i :: 0 <= i < |parts| ==> '_' !in parts[i]
    ensures SetterName(Implode("_", parts)) == "set" + Implode("", UcFirstAll(parts))
  {
    ExplodeImplode('_', parts);
  }

  /** A property without `_` gives `set` and the property with its first character upper-cased. */
  lemma SetterNameSinglePart(prop: string)
    requires '_' !in prop
    ensures SetterName(prop) == "set" + UcFirst(prop)
  {
    ExplodeNoSeparator('_', prop);
  }

  /** A two-part property gives `set` and both parts with their first characters upper-cased. */
  lemma SetterNameTwoParts(first: string, second: string)
    requires '_' !in first && '_' !in second
    ensures SetterName(first + "_" + second) == "set" + UcFirst(first) + UcFirst(second)
  {
    var parts := [first, second];
    assert Implode("_", parts) == first + "_" + second;
    SetterNameOfParts(parts);
    assert UcFirstAll(parts) == [UcFirst(first), UcFirst(second)];
  }

  /** `image_url` maps to `setImageUrl`. */
  lemma SetterNameExample()
    ensures SetterName("image_url") == "setImageUrl"
  {
    calc {
      SetterName("image_url");
    == { assert "image" + "_" + "url" == "image_url"; }
      SetterName("image" + "_" + "url");
    == { SetterNameTwoParts("image", "url"); }
      "set" + UcFirst("image") + UcFirst("url");
    == { assert UcFirst("image") == "Image" by {
           assert ToUpper('i') == 'I' && "image"[1..] == "mage";
         }
         assert UcFirst("url") == "Url" by {
           assert ToUpper('u') == 'U' && "url"[1..] == "rl";
         }
       }
      "setImageUrl";
    }
  }

  /** Different properties can share one setter: `imageUrl`, like `image_url`, maps to
      `setImageUrl`. */
  lemma SetterNamesCollide()
    ensures SetterName("imageUrl") == "setImageUrl"
  {
    calc {
      SetterName("imageUrl");
    == { assert '_' !in "imageUrl"; SetterNameSinglePart("imageUrl"); }
      "set" + UcFirst("imageUrl");
    == { assert ToUpper('i') == 'I' && "imageUrl"[1..] == "mageUrl"; }
      "setImageUrl";
    }
  }
}
