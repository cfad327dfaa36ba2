/** Amount in words (frontend/src/utils/numberToWords.ts): the whole part
    of an amount spelt out in English with Indian grouping (Hundred,
    Thousand, Lakh; there is no Crore), as printed after "Rupees". */
module NumberToWords {
  import opened Strings

  /** The table `a`: the words for 0 to 19, 0 being the empty word. */
  const Ones: seq<string> := [
    "", "One", "Two", "Three", "Four", "Five", "Six",
    "Seven", "Eight", "Nine", "Ten", "Eleven", "Twelve",
    "Thirteen", "Fourteen", "Fifteen", "Sixteen",
    "Seventeen", "Eighteen", "Nineteen"
  ]

  /** The table `b`: the words for the tens, indexed by the tens digit. */
  const Tens: seq<string> := [
    "", "", "Twenty", "Thirty", "Forty",
    "Fifty", "Sixty", "Seventy", "Eighty", "Ninety"
  ]

  predicate IsUpper(c: char) {
    'A' <= c <= 'Z'
  }

  predicate IsLetter(c: char) {
    'A' <= c <= 'Z' || 'a' <= c <= 'z'
  }

  /** A capitalised word: at least one letter, the first upper-case. */
  predicate Word(s: string) {
    |s| > 0 && IsUpper(s[0]) && forall j :: 0 <= j < |s| ==> IsLetter(s[j])
  }

  predicate LettersAndSpaces(s: string) {
    forall j :: 0 <= j < |s| ==> IsLetter(s[j]) || s[j] == ' '
  }

  /** The inner `inWords`: every recursive call is on a strictly smaller
      natural number, so it terminates. */
  function InWords(n: nat): (r: string)
    ensures r == "" <==> n == 0
    decreases n
  {
    if n < 20 then Ones[n]
    else if n < 100 then Tens[n / 10] + " " + Ones[n % 10]
    else if n < 1000 then Ones[n / 100] + " Hundred " + InWords(n % 100)
    else if n < 100000 then InWords(n / 1000) + " Thousand " + InWords(n % 1000)
    else InWords(n / 100000) + " Lakh " + InWords(n % 100000)
  }

  /** numberToWords: "Zero" for 0; otherwise the words of the whole part,
      trimmed. A negative amount is outside what the source handles (it
      indexes the tables with a negative number and then fails). */
  function NumberToWords(num: real): (r: string)
    requires num >= 0.0
    ensures r == "" || (!IsWhitespace(r[0]) && !IsWhitespace(r[|r| - 1]))
    ensures r == "" <==> num < 1.0 && num != 0.0
  {
    if num == 0.0 then "Zero"
    else
      InWordsShape(num.Floor as nat);
      Trim(InWords(num.Floor as nat))
  }

  lemma TablesAreWords()
    ensures forall i | 1 <= i < 20 :: Word(Ones[i])
    ensures forall i | 2 <= i < 10 :: Word(Tens[i])
    ensures Ones[0] == ""
  {
  }

  /** Joining two pieces with a separator keeps the shape, and the first
      character of a non-empty left piece stays first. */
  lemma JoinShape(a: string, sep: string, b: string)
    requires LettersAndSpaces(a) && LettersAndSpaces(sep) && LettersAndSpaces(b)
    ensures LettersAndSpaces(a + sep + b)
    ensures |a| > 0 ==> |a + sep + b| > 0 && (a + sep + b)[0] == a[0]
  {
  }

  /** The words for n consist of letters and spaces, and for n >= 1 they
      start with a capital letter. */
  ghost predicate WellShaped(n: nat) {
    LettersAndSpaces(InWords(n)) &&
    (n == 0 <==> InWords(n) == "") &&
    (n >= 1 ==> IsUpper(InWords(n)[0]))
  }

  lemma ShapeBelowHundred(n: nat)
    requires n < 100
    ensures WellShaped(n)
  {
    TablesAreWords();
    if n < 20 {
      assert n >= 1 ==> Word(Ones[n]);
    } else {
      assert Word(Tens[n / 10]) && LettersAndSpaces(Ones[n % 10]);
      JoinShape(Tens[n / 10], " ", Ones[n % 10]);
    }
  }

  lemma ShapeHundreds(n: nat)
    requires 100 <= n < 1000
    requires WellShaped(n % 100)
    ensures WellShaped(n)
  {
    TablesAreWords();
    assert Word(Ones[n / 100]);
    JoinShape(Ones[n / 100], " Hundred ", InWords(n % 100));
  }

  lemma ShapeGroup(hi: nat, sep: string, lo: nat)
    requires hi >= 1 && WellShaped(hi) && WellShaped(lo)
    requires LettersAndSpaces(sep)
    ensures var s := InWords(hi) + sep + InWords(lo);
      LettersAndSpaces(s) && |s| > 0 && IsUpper(s[0])
  {
    JoinShape(InWords(hi), sep, InWords(lo));
  }

  lemma {:induction false} InWordsShape(n: nat)
    ensures WellShaped(n)
    decreases n
  {
    if n < 100 {
      ShapeBelowHundred(n);
    } else if n < 1000 {
      ShapeBelowHundred(n % 100);
      ShapeHundreds(n);
    } else if n < 100000 {
      InWordsShape(n / 1000);
      InWordsShape(n % 1000);
      ShapeGroup(n / 1000, " Thousand ", n % 1000);
    } else {
      InWordsShape(n / 100000);
      InWordsShape(n % 100000);
      ShapeGroup(n / 100000, " Lakh ", n % 100000);
    }
  }

  /** A string of letters and spaces that starts with a letter is trimmed
      only at its end. */
  lemma TrimOnlyAtEnd(s: string)
    requires LettersAndSpaces(s) && |s| > 0 && IsLetter(s[0])
    ensures Trim(s) == TrimEnd(s) && |Trim(s)| > 0 && Trim(s)[0] == s[0]
  {
  }

  /** Removing one trailing space from a string whose last character is
      not whitespace. */
  lemma TrimTrailingSpace(s: string)
    requires |s| > 0 && !IsWhitespace(s[0]) && !IsWhitespace(s[|s| - 1])
    ensures Trim(s + " ") == s
  {
    assert (s + " ")[0] == s[0];
    assert TrimStart(s + " ") == s + " ";
    assert (s + " ")[..|s|] == s;
    assert TrimEnd(s) == s;
  }

  lemma Zero()
    ensures NumberToWords(0.0) == "Zero"
  {
  }

  /** The fractional part is dropped: any amount of at least 1 reads as
      its whole part, and starts with a capital letter. */
  lemma FractionDiscarded(num: real)
    requires num >= 1.0
    ensures NumberToWords(num) == NumberToWords(num.Floor as real)
    ensures |NumberToWords(num)| > 0 && IsUpper(NumberToWords(num)[0])
  {
    var n := num.Floor as nat;
    InWordsShape(n);
    TrimOnlyAtEnd(InWords(n));
  }

  /** An amount strictly between 0 and 1 reads as nothing at all. */
  lemma BelowOne(num: real)
    requires 0.0 < num < 1.0
    ensures NumberToWords(num) == ""
  {
  }

  /** From 1 to 19 the words are exactly the table entry. */
  lemma OnesLookup(n: nat)
    requires 1 <= n < 20
    ensures NumberToWords(n as real) == Ones[n]
  {
    TablesAreWords();
    TrimIdentity(Ones[n]);
  }

  /** A round multiple of ten below 100 is exactly the tens word, the
      space the source appends being trimmed. */
  lemma TensLookup(n: nat)
    requires 20 <= n < 100 && n % 10 == 0
    ensures NumberToWords(n as real) == Tens[n / 10]
  {
    TablesAreWords();
    assert InWords(n) == Tens[n / 10] + " ";
    TrimTrailingSpace(Tens[n / 10]);
  }

  lemma TwentyThousandWords()
    ensures InWords(20000) == "Twenty  Thousand "
  {
    assert InWords(20) == "Twenty ";
  }

  /** Inner double spaces survive the trim: 20000 reads "Twenty  Thousand". */
  lemma DoubleSpace()
    ensures NumberToWords(20000.0) == "Twenty  Thousand"
  {
    TwentyThousandWords();
    TrimTrailingSpace("Twenty  Thousand");
  }

  lemma TenMillionWords()
    ensures InWords(10000000) == "One Hundred  Lakh "
  {
    assert InWords(100) == "One Hundred ";
  }

  /** There is no Crore: ten million reads as one hundred Lakh. */
  lemma NoCrore()
    ensures NumberToWords(10000000.0) == "One Hundred  Lakh"
  {
    TenMillionWords();
    TrimTrailingSpace("One Hundred  Lakh");
  }
}
