/** Amounts in Indian-system words, and a reader that gets the amount back. */
module NumberWords {
  import opened Options
  import opened Rounding
  import opened Text

  // ---- the vocabulary ---------------------------------------------------------

  const HUNDRED := 28
  const THOUSAND := 29
  const LAKH := 30
  const CRORE := 31
  const ZERO := 32

  /** 1 to 19 are the ones, 20 to 27 the tens from twenty to ninety, then the units. */
  const VOCABULARY := [
    "", "one", "two", "three", "four", "five", "six", "seven", "eight", "nine", "ten", "eleven", "twelve", "thirteen",
    "fourteen", "fifteen", "sixteen", "seventeen", "eighteen", "nineteen", "twenty", "thirty", "forty", "fifty",
    "sixty",
    "seventy", "eighty", "ninety", "hundred", "thousand", "lakh", "crore", "zero"]

  function Spell(k: nat): string
  {
    if k < |VOCABULARY| then VOCABULARY[k] else ""
  }

  function Ones(n: nat): string { if n < 20 then Spell(n) else "" }

  function Tens(t: nat): string { if 2 <= t <= 9 then Spell(18 + t) else "" }

  // ---- the printer --------------------------------------------------------------

  function TwoDigits(n: nat): string
  {
    if n < 20 then Ones(n)
    else
      var t, o := n / 10, n % 10;
      if o == 0 then Tens(t) else Tens(t) + "-" + Ones(o)
  }

  function ThreeDigits(n: nat): string
  {
    if n == 0 then ""
    else if n < 100 then TwoDigits(n)
    else
      var h, rest := n / 100, n % 100;
      if rest == 0 then Ones(h) + " hundred" else Ones(h) + " hundred " + TwoDigits(rest)
  }

  function Capitalise(s: string): string
  {
    if |s| == 0 then s else [Upper(s[0])] + s[1..]
  }

  function Upper(c: char): char { if 'a' <= c <= 'z' then (c as int - 32) as char else c }

  function Lower(c: char): char { if 'A' <= c <= 'Z' then (c as int + 32) as char else c }

  method RupeesInWords(rupees: int) returns (s: string)
    ensures s == RupeesText(rupees)
    decreases if rupees < 0 then 2 else 0
  {
    if rupees == 0 { return "zero"; }
    if rupees < 0 {
      s := NegativeInWords(-rupees);
    } else {
      s := PositiveInWords(rupees);
    }
  }

  method NegativeInWords(rupees: nat) returns (s: string)
    requires rupees > 0
    ensures s == RupeesText(0 - rupees)
    decreases 1
  {
    var positive := RupeesInWords(rupees);
    MinusText(rupees);
    s := "minus " + positive;
  }

  method PositiveInWords(rupees: nat) returns (s: string)
    requires rupees > 0
    ensures s == Positive(rupees)
  {
    s := GroupsInWords(rupees / 10000000, (rupees % 10000000) / 100000, (rupees % 100000) / 1000, rupees % 1000);
  }

  method GroupsInWords(crore: nat, lakh: nat, thousand: nat, rest: nat) returns (s: string)
    ensures s == Join(GroupParts(crore, lakh, thousand, rest), ' ')
  {
    var parts: seq<string> := [];
    parts := PushPart(parts, crore, " crore");
    parts := PushPart(parts, lakh, " lakh");
    parts := PushPart(parts, thousand, " thousand");
    parts := PushPart(parts, rest, "");
    assert [] + Part(crore, " crore") == Part(crore, " crore");
    s := Join(parts, ' ');
  }

  /** A group is pushed only when it is not zero. */
  method PushPart(parts: seq<string>, n: nat, unit: string) returns (more: seq<string>)
    ensures more == parts + Part(n, unit)
  {
    more := parts;
    if n > 0 { more := more + [ThreeDigits(n) + unit]; }
  }

  function RupeesText(rupees: int): string
  {
    if rupees < 0 then Minus(Positive(-rupees)) else Positive(rupees)
  }

  function Positive(rupees: nat): string
  {
    Join(RupeeParts(rupees), ' ')
  }

  lemma {:induction false} MinusText(n: int)
    requires n > 0
    ensures RupeesText(n) == Positive(n) && RupeesText(-n) == Minus(Positive(n))
  {
  }

  function Minus(s: string): string { "minus " + s }

  function Part(n: nat, unit: string): seq<string>
  {
    if n == 0 then [] else [ThreeDigits(n) + unit]
  }

  function RupeeParts(rupees: nat): seq<string>
  {
    if rupees == 0 then ["zero"]
    else GroupParts(rupees / 10000000, (rupees % 10000000) / 100000, (rupees % 100000) / 1000, rupees % 1000)
  }

  function GroupParts(crore: nat, lakh: nat, thousand: nat, rest: nat): seq<string>
  {
    Part(crore, " crore") + Part(lakh, " lakh") + Part(thousand, " thousand") + Part(rest, "")
  }

  /** The sentence around the words for the rupees. */
  function Framed(rupees: string, paise: nat): string
  {
    if paise == 0 then "Rupees " + Capitalise(rupees) + " only"
    else "Rupees " + Capitalise(rupees) + " and " + TwoDigits(paise) + " paise only"
  }

  /** The sentence for whole rupees and the paise above them. */
  function Sentence(rupees: int, paise: nat): string
  {
    Framed(RupeesText(rupees), paise)
  }

  /** The amount in whole paise, ties upward. */
  function Paise(amount: real): int
  {
    HalfUp(amount * 100.0)
  }

  function Printed(amount: real): string
  {
    Sentence(Paise(amount) / 100, Paise(amount) % 100)
  }

  /** The printer on an amount in rupees: rounded to paise, then put in words. */
  method NumberToIndianWords(amount: real) returns (s: string)
    ensures s == Printed(amount)
  {
    var rounded := Paise(amount);
    var rupees := rounded / 100;
    var paise := rounded % 100;
    var words := RupeesInWords(rupees);
    var rupeesPart := Capitalise(words);
    if paise == 0 { return "Rupees " + rupeesPart + " only"; }
    var paisePart := TwoDigits(paise);
    s := "Rupees " + rupeesPart + " and " + paisePart + " paise only";
  }

  // ---- the reader ---------------------------------------------------------------

  /** Places of words in the vocabulary. */
  type Dictionary = string -> nat

  /** What has been read: whole groups, and the group being read. */
  datatype Reading = Reading(total: nat, current: nat)

  function ReadOne(d: Dictionary, r: Reading, w: string): Reading
  {
    var k := d(w);
    if k == HUNDRED then r.(current := r.current * 100)
    else if k == THOUSAND then Reading(r.total + r.current * 1000, 0)
    else if k == LAKH then Reading(r.total + r.current * 100000, 0)
    else if k == CRORE then Reading(r.total + r.current * 10000000, 0)
    else r.(current := r.current + if k < 20 then k else if k < 28 then (k - 18) * 10 else 0)
  }

  function ReadAll(d: Dictionary, r: Reading, words: seq<string>): Reading
    decreases |words|
  {
    if words == [] then r else ReadAll(d, ReadOne(d, r, words[0]), words[1..])
  }

  /** Words at spaces, and hyphenated words at their hyphen. */
  function ReadText(d: Dictionary, r: Reading, words: seq<string>): Reading
    decreases |words|
  {
    if words == [] then r else ReadText(d, ReadAll(d, r, Split(words[0], '-')), words[1..])
  }

  function Value(d: Dictionary, words: seq<string>): nat
  {
    var r := ReadText(d, Reading(0, 0), words);
    r.total + r.current
  }

  function Uncapitalise(words: seq<string>): seq<string>
  {
    if |words| == 0 || |words[0]| == 0 then words else [[Lower(words[0][0])] + words[0][1..]] + words[1..]
  }

  function Reader(d: Dictionary): seq<string> -> nat
  {
    (words: seq<string>) => Value(d, words)
  }

  /** "Rupees ... only", perhaps with "and ... paise" before the "only". */
  function ReadFrame(words: seq<string>, value: seq<string> -> nat): Option<nat>
  {
    if |words| < 3 then None
    else
      var body := words[1..|words| - 1];
      if |body| > 3 && body[|body| - 1] == "paise" then
        Some(100 * value(Uncapitalise(body[..|body| - 3])) + value([body[|body| - 2]]))
      else Some(100 * value(Uncapitalise(body)))
  }

  function ReadSentence(d: Dictionary, s: string): Option<nat>
  {
    ReadFrame(Split(s, ' '), Reader(d))
  }
}
