/**
 * The text distorter of text.go: the runes of a message alternate between
 * lower case (1st, 3rd, ...) and upper case (2nd, 4th, ...).
 *
 * A string is a sequence of runes here. Case mapping covers the ASCII
 * letters and the basic Cyrillic block (U+0400 to U+045F, the letters of
 * Russian, Ukrainian, Belarusian and Serbian); every other rune is left as
 * it is.
 */
module Text {

  predicate IsLower(c: char)
  {
    'a' <= c <= 'z' || 'а' <= c <= 'џ'
  }

  predicate IsUpper(c: char)
  {
    'A' <= c <= 'Z' || 'Ѐ' <= c <= 'Я'
  }

  /** `unicode.ToUpper` on the modelled letters. */
  function ToUpper(c: char): (u: char)
    ensures !IsLower(u)
    ensures IsLower(c) ==> IsUpper(u)
    ensures !IsLower(c) ==> u == c
  {
    if 'a' <= c <= 'z' then (c as int - 0x20) as char
    else if 'а' <= c <= 'я' then (c as int - 0x20) as char
    else if 'ѐ' <= c <= 'џ' then (c as int - 0x50) as char
    else c
  }

  /** `unicode.ToLower` on the modelled letters. */
  function ToLower(c: char): (l: char)
    ensures !IsUpper(l)
    ensures IsUpper(c) ==> IsLower(l)
    ensures !IsUpper(c) ==> l == c
  {
    if 'A' <= c <= 'Z' then (c as int + 0x20) as char
    else if 'А' <= c <= 'Я' then (c as int + 0x20) as char
    else if 'Ѐ' <= c <= 'Џ' then (c as int + 0x50) as char
    else c
  }

  /** Changing the case of a rune and changing it back gives the rune in that case. */
  lemma CaseRoundTrip(c: char)
    ensures ToLower(ToUpper(c)) == ToLower(c)
    ensures ToUpper(ToLower(c)) == ToUpper(c)
  {
  }

  /** The case `distortText` gives the rune at 0-based position `i`: upper at odd `i`, lower at even. */
  function DistortAt(c: char, i: nat): char
  {
    if (i + 1) % 2 == 0 then ToUpper(c) else ToLower(c)
  }

  /** What `distortText(text)` returns. */
  function Distorted(text: string): (r: string)
    ensures |r| == |text|
  {
    seq(|text|, i requires 0 <= i < |text| => DistortAt(text[i], i))
  }

  /** `distortText(text)`: `strings.Map` with a closure that counts the runes it has seen. */
  method DistortText(text: string) returns (r: string)
    ensures r == Distorted(text)
  {
    var count := 0;
    r := [];
    while count < |text|
      invariant 0 <= count <= |text|
      invariant |r| == count
      invariant forall i :: 0 <= i < count ==> r[i] == DistortAt(text[i], i)
    {
      var c := text[count];
      count := count + 1;
      if count % 2 == 0 {
        r := r + [ToUpper(c)];
      } else {
        r := r + [ToLower(c)];
      }
    }
  }

  /**
   * The result spells the same text up to case; the 2nd, 4th, ... runes
   * hold no lower-case letter and the 1st, 3rd, ... no upper-case one.
   */
  lemma DistortedShape(text: string)
    ensures forall i :: 0 <= i < |text| ==> ToLower(Distorted(text)[i]) == ToLower(text[i])
    ensures forall i :: 0 <= i < |text| && i % 2 == 1 ==> !IsLower(Distorted(text)[i])
    ensures forall i :: 0 <= i < |text| && i % 2 == 0 ==> !IsUpper(Distorted(text)[i])
  {
    forall i | 0 <= i < |text| ensures ToLower(Distorted(text)[i]) == ToLower(text[i]) {
      CaseRoundTrip(text[i]);
    }
  }

  /** Distorting a distorted text changes nothing. */
  lemma DistortIdempotent(text: string)
    ensures Distorted(Distorted(text)) == Distorted(text)
  {
    var d := Distorted(text);
    forall i | 0 <= i < |text| ensures Distorted(d)[i] == d[i] {
      CaseRoundTrip(text[i]);
    }
  }

  /** After a piece of even length the alternation carries on as if the text were distorted piece by piece. */
  lemma DistortAppendEven(a: string, b: string)
    requires |a| % 2 == 0
    ensures Distorted(a + b) == Distorted(a) + Distorted(b)
  {
    var ab := a + b;
    forall i | 0 <= i < |ab| ensures Distorted(ab)[i] == (Distorted(a) + Distorted(b))[i] {
      if i >= |a| {
        assert ab[i] == b[i - |a|];
        assert (i + 1) % 2 == (i - |a| + 1) % 2;
      }
    }
  }
}
