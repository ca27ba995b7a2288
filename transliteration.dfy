/** `transliterationMap` and `transliterateArabicToEnglish` of lib/api.ts:
    each character in the Arabic blocks is replaced by its table entry (or
    kept when the entry is missing or empty), every other character is kept,
    and then all whitespace is deleted. */
module Transliteration {
  import opened Wrappers
  import opened Text

  /** The regular expression `[\u0600-\u06FF\u0750-\u077F\u08A0-\u08FF]`. */
  predicate IsArabic(c: char) {
    || ('\U{0600}' <= c <= '\U{06FF}')
    || ('\U{0750}' <= c <= '\U{077F}')
    || ('\U{08A0}' <= c <= '\U{08FF}')
  }

  /** `transliterationMap[c]` for a single character `c`: the letters, the
      vowel marks, Arabic punctuation and the Arabic-Indic digits. The table
      also has a two-character key (U+0653 followed by a space), which a
      single character never equals, so it never takes part. */
  function TableEntry(c: char): (e: Option<string>)
    ensures e.Some? ==> IsArabic(c) && NoWhitespace(e.value)
  {
    match c
    case '\U{0627}' => Some("a")
    case '\U{0628}' => Some("b")
    case '\U{062A}' => Some("t")
    case '\U{062B}' => Some("th")
    case '\U{062C}' => Some("j")
    case '\U{062D}' => Some("h")
    case '\U{062E}' => Some("kh")
    case '\U{062F}' => Some("d")
    case '\U{0630}' => Some("dh")
    case '\U{0631}' => Some("r")
    case '\U{0632}' => Some("z")
    case '\U{0633}' => Some("s")
    case '\U{0634}' => Some("sh")
    case '\U{0635}' => Some("s")
    case '\U{0636}' => Some("d")
    case '\U{0637}' => Some("t")
    case '\U{0638}' => Some("z")
    case '\U{0639}' => Some("a")
    case '\U{063A}' => Some("gh")
    case '\U{0641}' => Some("f")
    case '\U{0642}' => Some("q")
    case '\U{0643}' => Some("k")
    case '\U{0644}' => Some("l")
    case '\U{0645}' => Some("m")
    case '\U{0646}' => Some("n")
    case '\U{0647}' => Some("h")
    case '\U{0648}' => Some("w")
    case '\U{064A}' => Some("y")
    case '\U{0623}' => Some("a")
    case '\U{0625}' => Some("i")
    case '\U{0622}' => Some("a")
    case '\U{0624}' => Some("w")
    case '\U{0626}' => Some("y")
    case '\U{0621}' => Some("")
    case '\U{0649}' => Some("a")
    case '\U{0629}' => Some("h")
    case '\U{0653}' => Some("")
    case '\U{0671}' => Some("a")
    case '\U{064B}' => Some("")
    case '\U{064C}' => Some("")
    case '\U{064D}' => Some("")
    case '\U{064E}' => Some("a")
    case '\U{064F}' => Some("u")
    case '\U{0650}' => Some("i")
    case '\U{0651}' => Some("")
    case '\U{0652}' => Some("")
    case '\U{061F}' => Some("?")
    case '\U{060C}' => Some(",")
    case '\U{061B}' => Some(";")
    case '\U{0660}' => Some("0")
    case '\U{0661}' => Some("1")
    case '\U{0662}' => Some("2")
    case '\U{0663}' => Some("3")
    case '\U{0664}' => Some("4")
    case '\U{0665}' => Some("5")
    case '\U{0666}' => Some("6")
    case '\U{0667}' => Some("7")
    case '\U{0668}' => Some("8")
    case '\U{0669}' => Some("9")
    case _ => None
  }

  /** The per-character step `isArabic(char) ? transliterationMap[char] || char : char`:
      no character is dropped, and one is replaced only when it is Arabic
      and its table entry is its replacement. */
  function MapChar(c: char): (r: string)
    ensures r != []
    ensures !IsArabic(c) ==> r == [c]
    ensures r != [c] ==> TableEntry(c) == Some(r)
  {
    if IsArabic(c) then
      match TableEntry(c)
      case Some(t) => if t != "" then t else [c]
      case None => [c]
    else [c]
  }

  /** `name.split("").map(...).join("")`: every character yields at least
      one, so the text never gets shorter. */
  function MapAll(s: string): (r: string)
    ensures |r| >= |s|
  {
    if s == [] then [] else MapChar(s[0]) + MapAll(s[1..])
  }

  /** `transliterateArabicToEnglish(name)`. */
  function TransliterateArabicToEnglish(name: string): (r: string)
    ensures NoWhitespace(r)
  {
    RemoveWhitespace(MapAll(name))
  }

  lemma {:induction false} MapAllAppend(a: string, b: string)
    ensures MapAll(a + b) == MapAll(a) + MapAll(b)
  {
    if a == [] {
      assert a + b == b;
    } else {
      assert (a + b)[1..] == a[1..] + b;
      MapAllAppend(a[1..], b);
    }
  }

  /** The transliteration of a concatenation is the concatenation of the
      transliterations: characters are handled independently and in order. */
  lemma TransliterateAppend(a: string, b: string)
    ensures TransliterateArabicToEnglish(a + b)
            == TransliterateArabicToEnglish(a) + TransliterateArabicToEnglish(b)
  {
    MapAllAppend(a, b);
    RemoveWhitespaceAppend(MapAll(a), MapAll(b));
  }

  /** What a single character becomes: its non-empty table entry when it is
      Arabic and has one, nothing when it is whitespace, itself otherwise. */
  lemma TransliterateOneChar(c: char)
    ensures TransliterateArabicToEnglish([c])
            == if IsArabic(c) && TableEntry(c).Some? && TableEntry(c).value != "" then TableEntry(c).value
               else if IsWhitespace(c) then []
               else [c]
  {
    var m := MapChar(c);
    assert MapAll([c]) == m + MapAll([]) == m;
    if IsArabic(c) && TableEntry(c).Some? && TableEntry(c).value != "" {
      RemoveWhitespaceKeeps(m);
    } else {
      assert m == [c];
    }
  }

  lemma {:induction false} MapAllNonArabic(s: string)
    requires forall i :: 0 <= i < |s| ==> !IsArabic(s[i])
    ensures MapAll(s) == s
  {
    if s != [] {
      MapAllNonArabic(s[1..]);
    }
  }

  /** A name without Arabic characters comes out unchanged except that its
      whitespace is gone. */
  lemma NonArabicPassesThrough(s: string)
    requires forall i :: 0 <= i < |s| ==> !IsArabic(s[i])
    ensures TransliterateArabicToEnglish(s) == RemoveWhitespace(s)
  {
    MapAllNonArabic(s);
  }

  /** An Arabic character whose table entry is the empty string (hamza, the
      tanween marks, shadda, sukun, maddah) is kept as itself, because `||`
      treats the empty entry as missing. */
  lemma EmptyEntryKeepsCharacter(c: char)
    requires TableEntry(c) == Some("")
    ensures TransliterateArabicToEnglish([c]) == [c]
  {
    TransliterateOneChar(c);
  }
}
