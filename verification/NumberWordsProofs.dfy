/** The reader recovers every amount the printer can express. */
module NumberWordsProofs {
  import opened Options
  import opened Rounding
  import opened Text
  import opened NumberWords

  /** The only word a spelling can be, judged by its length and three of its letters. */
  function Guess(w: string): nat
  {
    if |w| < 3 then 0
    else
      var n, a, b, z := |w|, w[0], w[1], w[|w| - 1];
      if n == 3 then (if a == 'o' then 1 else if b == 'w' then 2 else if a == 's' then 6 else 10)
      else if n == 4 then
        (if b == 'o' then 4 else if a == 'f' then 5 else if a == 'n' then 9 else if a == 'l' then LAKH else ZERO)
      else if n == 5 then
        (if a == 't' then 3 else if z == 'n' then 7 else if z == 't' then 8 else if a == 's' then 24
         else if a == 'c' then CRORE else if b == 'o' then 22 else 23)
      else if n == 6 then
        (if z == 'n' then 11 else if z == 'e' then 12 else if b == 'w' then 20 else if b == 'h' then 21
         else if a == 'e' then 26 else 27)
      else if n == 7 then (if a == 'f' then 15 else if a == 'h' then HUNDRED else if z == 'y' then 25 else 16)
      else if n == 8 then
        (if z == 'd' then THOUSAND else if a == 't' then 13 else if a == 'f' then 14 else if a == 'e' then 18 else 19)
      else 17
  }

  lemma {:induction false} GuessSpelling(k: nat)
    requires 1 <= k <= ZERO
    ensures Guess(Spell(k)) == k && |Spell(k)| > 0
  {
    if k < 12 { GuessSmall(k); } else if k < 22 { GuessMiddle(k); } else { GuessLarge(k); }
  }

  lemma {:induction false} GuessSmall(k: nat)
    requires 1 <= k < 12
    ensures Guess(Spell(k)) == k
  {
  }

  lemma {:induction false} GuessMiddle(k: nat)
    requires 12 <= k < 22
    ensures Guess(Spell(k)) == k
  {
  }

  lemma {:induction false} GuessLarge(k: nat)
    requires 22 <= k <= ZERO
    ensures Guess(Spell(k)) == k
  {
  }

  /** The dictionary finds every word of the vocabulary where it stands. */
  ghost predicate Knows(d: Dictionary)
  {
    forall k | 1 <= k <= ZERO :: d(Spell(k)) == k
  }

  /** There is one: no two words are spelled alike. */
  lemma {:induction false} DictionaryExists()
    ensures exists d: Dictionary :: Knows(d)
  {
    forall k | 1 <= k <= ZERO ensures Guess(Spell(k)) == k { GuessSpelling(k); }
    var d: Dictionary := Guess;
    assert Knows(d);
  }

  /** Lower-case letters only. */
  ghost predicate Plain(w: string)
  {
    forall i | 0 <= i < |w| :: 'a' <= w[i] <= 'z'
  }

  lemma {:induction false} SpellingIsPlain(k: nat)
    ensures Plain(Spell(k)) && (|Spell(k)| > 0 ==> Spell(k)[0] != 'p')
  {
    if k < 12 { SmallSpellings(k); } else if k < 22 { MiddleSpellings(k); } else { LargeSpellings(k); }
  }

  lemma {:induction false} SmallSpellings(k: nat)
    requires k < 12
    ensures Plain(Spell(k)) && (|Spell(k)| > 0 ==> Spell(k)[0] != 'p')
  {
  }

  lemma {:induction false} MiddleSpellings(k: nat)
    requires 12 <= k < 22
    ensures Plain(Spell(k)) && Spell(k)[0] != 'p'
  {
  }

  lemma {:induction false} LargeSpellings(k: nat)
    requires 22 <= k
    ensures Plain(Spell(k)) && (|Spell(k)| > 0 ==> Spell(k)[0] != 'p')
  {
  }

  lemma {:induction false} PlainHasNo(w: string, sep: char)
    requires Plain(w) && !('a' <= sep <= 'z')
    ensures sep !in w
  {
  }

  // ---- words of the parts -------------------------------------------------------

  /** The hyphenated pieces of a number below a hundred, by their place in the vocabulary. */
  function TwoKeys(n: nat): seq<nat>
    requires 0 < n < 100
  {
    if n < 20 then [n] else if n % 10 == 0 then [18 + n / 10] else [18 + n / 10, n % 10]
  }

  function Spelled(keys: seq<nat>): seq<string>
  {
    seq(|keys|, i requires 0 <= i < |keys| => Spell(keys[i]))
  }

  /** A printed word: what the sentence's frame cannot be confused with. */
  ghost predicate IsWord(w: string)
  {
    |w| > 0 && 'a' <= w[0] <= 'z' && w[0] != 'p' && ' ' !in w
  }

  lemma {:induction false} KeyIsWord(k: nat)
    requires 0 < k <= ZERO
    ensures IsWord(Spell(k)) && '-' !in Spell(k)
  {
    GuessSpelling(k);
    SpellingIsPlain(k);
    PlainHasNo(Spell(k), '-');
    PlainHasNo(Spell(k), ' ');
  }

  lemma {:induction false} TwoIsWord(n: nat)
    requires 0 < n < 100
    ensures IsWord(TwoDigits(n))
  {
    KeyIsWord(TwoKeys(n)[0]);
    if n >= 20 && n % 10 != 0 {
      KeyIsWord(n % 10);
      HyphenIsWord(Tens(n / 10), Ones(n % 10));
    }
  }

  lemma {:induction false} HyphenIsWord(a: string, b: string)
    requires IsWord(a) && ' ' !in b
    ensures IsWord(a + "-" + b)
  {
  }

  lemma {:induction false} TwoSplits(n: nat)
    requires 0 < n < 100
    ensures Split(TwoDigits(n), '-') == Spelled(TwoKeys(n))
  {
    var words := Spelled(TwoKeys(n));
    KeyIsWord(TwoKeys(n)[0]);
    if |words| == 2 { KeyIsWord(TwoKeys(n)[1]); }
    SplitJoin(words, '-');
    TwoJoins(n);
  }

  lemma {:induction false} TwoJoins(n: nat)
    requires 0 < n < 100
    ensures Join(Spelled(TwoKeys(n)), '-') == TwoDigits(n)
  {
    var words := Spelled(TwoKeys(n));
    if n >= 20 && n % 10 != 0 {
      assert words == [Tens(n / 10), Ones(n % 10)];
      assert words[1..] == [Ones(n % 10)];
      assert Tens(n / 10) + "-" + Ones(n % 10) == Tens(n / 10) + ['-'] + Ones(n % 10);
    }
  }

  lemma {:induction false} ReadSingle(d: Dictionary, r: Reading, w: string, a: string)
    requires Split(w, '-') == [a]
    ensures ReadText(d, r, [w]) == ReadOne(d, r, a)
  {
    assert [w][1..] == [] && [a][1..] == [];
    assert ReadAll(d, r, [a]) == ReadAll(d, ReadOne(d, r, a), []) == ReadOne(d, r, a);
    assert ReadText(d, r, [w]) == ReadText(d, ReadAll(d, r, [a]), []);
  }

  lemma {:induction false} ReadPair(d: Dictionary, r: Reading, w: string, a: string, b: string)
    requires Split(w, '-') == [a, b]
    ensures ReadText(d, r, [w]) == ReadOne(d, ReadOne(d, r, a), b)
  {
    assert [w][1..] == [] && [a, b][1..] == [b] && [b][1..] == [];
    assert ReadAll(d, r, [a, b]) == ReadAll(d, ReadOne(d, r, a), [b])
           == ReadAll(d, ReadOne(d, ReadOne(d, r, a), b), []);
    assert ReadText(d, r, [w]) == ReadText(d, ReadAll(d, r, [a, b]), []);
  }

  function KeyValue(k: nat): nat
  {
    if k < 20 then k else if k < 28 then (k - 18) * 10 else 0
  }

  lemma {:induction false} ReadKey(d: Dictionary, r: Reading, k: nat)
    requires Knows(d) && 0 < k < HUNDRED
    ensures ReadOne(d, r, Spell(k)) == r.(current := r.current + KeyValue(k))
  {
  }

  lemma {:induction false} KeysAddUp(n: nat)
    requires 0 < n < 100
    ensures var keys := TwoKeys(n);
            0 < keys[0] < HUNDRED && n == KeyValue(keys[0]) + if |keys| == 2 then KeyValue(keys[1]) else 0
    ensures |TwoKeys(n)| == 2 ==> 0 < TwoKeys(n)[1] < HUNDRED
  {
  }

  lemma {:induction false} ReadTwo(d: Dictionary, r: Reading, n: nat)
    requires Knows(d) && 0 < n < 100
    ensures ReadText(d, r, [TwoDigits(n)]) == r.(current := r.current + n)
  {
    TwoSplits(n);
    KeysAddUp(n);
    var keys := TwoKeys(n);
    ReadKey(d, r, keys[0]);
    if |keys| == 2 {
      ReadPair(d, r, TwoDigits(n), Spell(keys[0]), Spell(keys[1]));
      ReadKey(d, ReadOne(d, r, Spell(keys[0])), keys[1]);
    } else {
      ReadSingle(d, r, TwoDigits(n), Spell(keys[0]));
    }
  }

  lemma {:induction false} ReadUnit(d: Dictionary, r: Reading, k: nat)
    requires Knows(d) && HUNDRED <= k <= ZERO
    ensures ReadText(d, r, [Spell(k)]) == ReadOne(d, r, Spell(k)) && d(Spell(k)) == k
  {
    KeyIsWord(k);
    SplitJoin([Spell(k)], '-');
    ReadSingle(d, r, Spell(k), Spell(k));
  }

  lemma {:induction false} ReadTextJoins(d: Dictionary, r: Reading, xs: seq<string>, ys: seq<string>)
    ensures ReadText(d, r, xs + ys) == ReadText(d, ReadText(d, r, xs), ys)
    decreases |xs|
  {
    if xs == [] {
      assert xs + ys == ys;
    } else {
      assert (xs + ys)[1..] == xs[1..] + ys;
      ReadTextJoins(d, ReadAll(d, r, Split(xs[0], '-')), xs[1..], ys);
    }
  }

  function ThreeWords(n: nat): seq<string>
    requires 0 < n < 2000
  {
    if n < 100 then [TwoDigits(n)]
    else [Ones(n / 100), Spell(HUNDRED)] + if n % 100 == 0 then [] else [TwoDigits(n % 100)]
  }

  ghost predicate AllWords(ws: seq<string>)
  {
    ws != [] && forall w | w in ws :: IsWord(w)
  }

  lemma {:induction false} ThreeAreWords(n: nat)
    requires 0 < n < 2000
    ensures AllWords(ThreeWords(n))
  {
    if n < 100 {
      TwoIsWord(n);
    } else {
      TwoIsWord(n / 100);
      KeyIsWord(HUNDRED);
      if n % 100 > 0 { TwoIsWord(n % 100); }
    }
  }

  lemma {:induction false} ThreeJoins(n: nat)
    requires 0 < n < 2000
    ensures ThreeDigits(n) == Join(ThreeWords(n), ' ')
  {
    if n >= 100 {
      HundredJoins(Ones(n / 100), TwoDigits(n % 100));
    }
  }

  lemma {:induction false} HundredJoins(head: string, tail: string)
    ensures Join([head, Spell(HUNDRED)] + [], ' ') == head + " hundred"
    ensures Join([head, Spell(HUNDRED)] + [tail], ' ') == head + " hundred " + tail
  {
    var two := [head, Spell(HUNDRED)];
    assert two[1..] == [Spell(HUNDRED)] && two + [] == two;
    assert Join(two, ' ') == head + [' '] + "hundred" == head + " hundred";
    JoinConcat(two, [tail], ' ');
    assert head + " hundred" + [' '] + tail == head + " hundred " + tail;
  }

  lemma {:induction false} ReadThree(d: Dictionary, total: nat, n: nat)
    requires Knows(d) && 0 < n < 2000
    ensures ReadText(d, Reading(total, 0), ThreeWords(n)) == Reading(total, n)
  {
    var r := Reading(total, 0);
    if n < 100 {
      ReadTwo(d, r, n);
    } else {
      var h, rest := n / 100, n % 100;
      var tail := if rest == 0 then [] else [TwoDigits(rest)];
      ReadTwo(d, r, h);
      ReadUnit(d, Reading(total, h), HUNDRED);
      ReadTextJoins(d, r, [Ones(h)], [Spell(HUNDRED)]);
      assert [Ones(h)] + [Spell(HUNDRED)] == [Ones(h), Spell(HUNDRED)];
      ReadTextJoins(d, r, [Ones(h), Spell(HUNDRED)], tail);
      if rest > 0 { ReadTwo(d, Reading(total, h * 100), rest); }
    }
  }

  // ---- rupees -------------------------------------------------------------------

  /** The words of one group and its unit. */
  function GroupWords(n: nat, unit: nat): seq<string>
    requires n < 2000
  {
    if n == 0 then [] else ThreeWords(n) + [Spell(unit)]
  }

  /** Two thousand crore: beyond it the table of ones has no word for the hundreds of crores. */
  const LIMIT := 20_000_000_000

  function AllGroups(crore: nat, lakh: nat, thousand: nat, rest: nat): seq<string>
    requires crore < 2000 && lakh < 2000 && thousand < 2000 && rest < 2000
  {
    GroupWords(crore, CRORE) + GroupWords(lakh, LAKH) + GroupWords(thousand, THOUSAND)
    + if rest == 0 then [] else ThreeWords(rest)
  }

  function RupeeWords(rupees: nat): seq<string>
    requires rupees < LIMIT
  {
    if rupees == 0 then [Spell(ZERO)]
    else AllGroups(rupees / 10000000, (rupees % 10000000) / 100000, (rupees % 100000) / 1000, rupees % 1000)
  }

  /** What a group of n adds, once its unit is read. */
  function Worth(n: nat, unit: nat): nat
  {
    if unit == CRORE then n * 10000000 else if unit == LAKH then n * 100000 else n * 1000
  }

  lemma {:induction false} ReadGroup(d: Dictionary, total: nat, n: nat, unit: nat)
    requires Knows(d) && n < 2000 && THOUSAND <= unit <= CRORE
    ensures ReadText(d, Reading(total, 0), GroupWords(n, unit)) == Reading(total + Worth(n, unit), 0)
  {
    if n > 0 {
      ReadThree(d, total, n);
      ReadUnit(d, Reading(total, n), unit);
      ReadTextJoins(d, Reading(total, 0), ThreeWords(n), [Spell(unit)]);
    }
  }

  /** Stretches of words read one after the other. */
  lemma {:induction false} ReadChain(d: Dictionary, a: seq<string>, b: seq<string>, c: seq<string>, e: seq<string>,
                                     start: Reading, x: Reading, y: Reading, z: Reading)
    requires ReadText(d, start, a) == x && ReadText(d, x, b) == y && ReadText(d, y, c) == z
    ensures ReadText(d, start, a + b + c + e) == ReadText(d, z, e)
  {
    ReadTextJoins(d, start, a, b);
    ReadTextJoins(d, start, a + b, c);
    ReadTextJoins(d, start, a + b + c, e);
  }

  lemma {:induction false} GroupsRead(d: Dictionary, crore: nat, lakh: nat, thousand: nat, rest: nat)
    requires Knows(d) && crore < 2000 && lakh < 2000 && thousand < 2000 && rest < 2000
    ensures Value(d, AllGroups(crore, lakh, thousand, rest))
            == Worth(crore, CRORE) + Worth(lakh, LAKH) + Worth(thousand, THOUSAND) + rest
  {
    var x := Worth(crore, CRORE);
    var y := x + Worth(lakh, LAKH);
    var z := y + Worth(thousand, THOUSAND);
    var last := if rest == 0 then [] else ThreeWords(rest);
    ReadGroup(d, 0, crore, CRORE);
    ReadGroup(d, x, lakh, LAKH);
    ReadGroup(d, y, thousand, THOUSAND);
    ReadChain(d, GroupWords(crore, CRORE), GroupWords(lakh, LAKH), GroupWords(thousand, THOUSAND), last,
              Reading(0, 0), Reading(x, 0), Reading(y, 0), Reading(z, 0));
    if rest > 0 { ReadThree(d, z, rest); }
  }

  lemma {:induction false} Groups(rupees: nat)
    ensures rupees == Worth(rupees / 10000000, CRORE) + Worth((rupees % 10000000) / 100000, LAKH)
                      + Worth((rupees % 100000) / 1000, THOUSAND) + rupees % 1000
  {
    assert (rupees % 10000000) % 100000 == rupees % 100000;
    assert (rupees % 100000) % 1000 == rupees % 1000;
  }

  /** The reader of words inverts the printer of words. */
  lemma {:induction false} RupeesRead(d: Dictionary, rupees: nat)
    requires Knows(d) && rupees < LIMIT
    ensures Value(d, RupeeWords(rupees)) == rupees
  {
    if rupees == 0 {
      ReadUnit(d, Reading(0, 0), ZERO);
    } else {
      GroupsRead(d, rupees / 10000000, (rupees % 10000000) / 100000, (rupees % 100000) / 1000, rupees % 1000);
      Groups(rupees);
    }
  }

  lemma {:induction false} GroupJoins(n: nat, unit: nat)
    requires 0 < n < 2000 && HUNDRED < unit <= CRORE
    ensures AllWords(GroupWords(n, unit)) && Join(GroupWords(n, unit), ' ') == ThreeDigits(n) + " " + Spell(unit)
  {
    ThreeJoins(n);
    ThreeAreWords(n);
    KeyIsWord(unit);
    JoinConcat(ThreeWords(n), [Spell(unit)], ' ');
  }

  /** The parts say the same as the words, in the same order. */
  ghost predicate SameText(texts: seq<string>, words: seq<string>)
  {
    (texts == [] <==> words == []) && Join(texts, ' ') == Join(words, ' ')
  }

  lemma {:induction false} SameTextJoins(texts: seq<string>, words: seq<string>, moreTexts: seq<string>,
                                         moreWords: seq<string>)
    requires SameText(texts, words) && SameText(moreTexts, moreWords)
    ensures SameText(texts + moreTexts, words + moreWords)
  {
    if moreTexts == [] {
      assert texts + moreTexts == texts && words + moreWords == words;
    } else if texts == [] {
      assert texts + moreTexts == moreTexts && words + moreWords == moreWords;
    } else {
      JoinConcat(texts, moreTexts, ' ');
      JoinConcat(words, moreWords, ' ');
    }
  }

  lemma {:induction false} SingleText(text: string, words: seq<string>)
    requires words != [] && text == Join(words, ' ')
    ensures SameText([text], words)
  {
  }

  lemma {:induction false} AppendUnit(text: string, unit: string)
    ensures text + (" " + unit) == text + " " + unit && text + "" == text
  {
  }

  lemma {:induction false} GroupText(n: nat, unit: nat, suffix: string)
    requires n < 2000 && HUNDRED < unit <= CRORE && suffix == " " + Spell(unit)
    ensures SameText(Part(n, suffix), GroupWords(n, unit))
  {
    if n > 0 {
      GroupJoins(n, unit);
      AppendUnit(ThreeDigits(n), Spell(unit));
      SingleText(ThreeDigits(n) + suffix, GroupWords(n, unit));
    }
  }

  lemma {:induction false} LastText(rest: nat)
    requires rest < 2000
    ensures SameText(Part(rest, ""), if rest == 0 then [] else ThreeWords(rest))
  {
    if rest > 0 {
      ThreeJoins(rest);
      AppendUnit(ThreeDigits(rest), "");
      SingleText(ThreeDigits(rest) + "", ThreeWords(rest));
    }
  }

  lemma {:induction false} GroupsJoin(crore: nat, lakh: nat, thousand: nat, rest: nat)
    requires crore < 2000 && lakh < 2000 && thousand < 2000 && rest < 2000
    ensures SameText(GroupParts(crore, lakh, thousand, rest), AllGroups(crore, lakh, thousand, rest))
  {
    var t1, w1 := Part(crore, " crore"), GroupWords(crore, CRORE);
    GroupText(crore, CRORE, " crore");
    GroupText(lakh, LAKH, " lakh");
    GroupText(thousand, THOUSAND, " thousand");
    LastText(rest);
    var t2, w2 := t1 + Part(lakh, " lakh"), w1 + GroupWords(lakh, LAKH);
    SameTextJoins(t1, w1, Part(lakh, " lakh"), GroupWords(lakh, LAKH));
    var t3, w3 := t2 + Part(thousand, " thousand"), w2 + GroupWords(thousand, THOUSAND);
    SameTextJoins(t2, w2, Part(thousand, " thousand"), GroupWords(thousand, THOUSAND));
    SameTextJoins(t3, w3, Part(rest, ""), if rest == 0 then [] else ThreeWords(rest));
  }

  lemma {:induction false} GroupIsWords(n: nat, unit: nat)
    requires n < 2000 && HUNDRED < unit <= CRORE
    ensures forall w | w in GroupWords(n, unit) :: IsWord(w)
  {
    if n > 0 { GroupJoins(n, unit); }
  }

  lemma {:induction false} RupeesAreWords(rupees: nat)
    requires rupees < LIMIT
    ensures AllWords(RupeeWords(rupees))
  {
    if rupees == 0 {
      KeyIsWord(ZERO);
    } else {
      GroupIsWords(rupees / 10000000, CRORE);
      GroupIsWords((rupees % 10000000) / 100000, LAKH);
      GroupIsWords((rupees % 100000) / 1000, THOUSAND);
      if rupees % 1000 > 0 { ThreeAreWords(rupees % 1000); }
      Groups(rupees);
    }
  }

  lemma {:induction false} RupeesJoin(rupees: nat)
    requires rupees < LIMIT
    ensures RupeesText(rupees) == Join(RupeeWords(rupees), ' ')
  {
    if rupees > 0 {
      GroupsJoin(rupees / 10000000, (rupees % 10000000) / 100000, (rupees % 100000) / 1000, rupees % 1000);
    }
  }

  // ---- the sentence ---------------------------------------------------------------

  function Capital(words: seq<string>): seq<string>
    requires words != []
  {
    [Capitalise(words[0])] + words[1..]
  }

  lemma {:induction false} CapitalJoins(words: seq<string>)
    requires words != [] && |words[0]| > 0
    ensures Capitalise(Join(words, ' ')) == Join(Capital(words), ' ')
  {
    var w := words[0];
    if |words| > 1 {
      var rest := [' '] + Join(words[1..], ' ');
      assert Join(words, ' ') == w + rest;
      assert (w + rest)[1..] == w[1..] + rest;
      assert Capital(words)[1..] == words[1..];
      assert Capitalise(w) + rest == Capitalise(w + rest);
      assert Join(Capital(words), ' ') == Capitalise(w) + [' '] + Join(words[1..], ' ');
    }
  }

  lemma {:induction false} CapitalBack(words: seq<string>)
    requires words != [] && IsWord(words[0])
    ensures Uncapitalise(Capital(words)) == words
    ensures ' ' !in Capital(words)[0] && Capital(words)[0] != "paise"
  {
    var w := words[0];
    var up := Capitalise(w);
    assert Lower(Upper(w[0])) == w[0];
    assert up[1..] == w[1..] && [w[0]] + w[1..] == w;
    assert [w] + words[1..] == words;
    assert up[0] != "paise"[0];
    assert forall c | c in w[1..] :: c in w;
  }

  function Tail(paise: nat): seq<string>
    requires paise < 100
  {
    if paise == 0 then ["only"] else ["and", TwoDigits(paise), "paise", "only"]
  }

  function FrameWords(words: seq<string>, paise: nat): seq<string>
    requires words != [] && paise < 100
  {
    ["Rupees"] + Capital(words) + Tail(paise)
  }

  lemma {:induction false} FrameJoins(capital: seq<string>, tail: seq<string>)
    requires capital != [] && tail != []
    ensures Join(["Rupees"] + capital + tail, ' ') == "Rupees " + Join(capital, ' ') + " " + Join(tail, ' ')
  {
    JoinConcat(["Rupees"], capital, ' ');
    JoinConcat(["Rupees"] + capital, tail, ' ');
    var text := Join(capital, ' ');
    assert "Rupees" + [' '] + text + [' '] + Join(tail, ' ') == "Rupees " + text + " " + Join(tail, ' ');
  }

  lemma {:induction false} FramedJoins(text: string, words: seq<string>, paise: nat)
    requires paise < 100 && words != [] && |words[0]| > 0 && text == Join(words, ' ')
    ensures Framed(text, paise) == Join(FrameWords(words, paise), ' ')
  {
    CapitalJoins(words);
    FrameJoins(Capital(words), Tail(paise));
    TailJoins(paise);
    FrameText(Capitalise(text), TwoDigits(paise));
  }

  lemma {:induction false} RupeesStart(rupees: nat)
    requires rupees < LIMIT
    ensures RupeeWords(rupees) != [] && |RupeeWords(rupees)[0]| > 0
  {
    RupeesAreWords(rupees);
    assert RupeeWords(rupees)[0] in RupeeWords(rupees);
  }

  lemma {:induction false} RupeesCapital(rupees: nat)
    requires rupees < LIMIT
    ensures var words := RupeeWords(rupees);
            words != [] && Uncapitalise(Capital(words)) == words && Capital(words)[|words| - 1] != "paise"
  {
    RupeesAreWords(rupees);
    LastIsNotPaise(RupeeWords(rupees));
    assert RupeeWords(rupees)[0] in RupeeWords(rupees);
    CapitalBack(RupeeWords(rupees));
  }

  lemma {:induction false} RupeesFramed(rupees: nat, paise: nat)
    requires rupees < LIMIT && paise < 100
    ensures Framed(RupeesText(rupees), paise) == Join(FrameWords(RupeeWords(rupees), paise), ' ')
  {
    RupeesJoin(rupees);
    RupeesStart(rupees);
    FramedJoins(RupeesText(rupees), RupeeWords(rupees), paise);
  }

  lemma {:induction false} FrameText(rupees: string, paise: string)
    ensures "Rupees " + rupees + " " + "only" == "Rupees " + rupees + " only"
    ensures "Rupees " + rupees + " " + ("and " + paise + " paise only")
            == "Rupees " + rupees + " and " + paise + " paise only"
  {
  }

  lemma {:induction false} JoinTwo(a: string, b: string)
    ensures Join([a, b], ' ') == a + [' '] + b
  {
    assert [a, b][1..] == [b];
  }

  lemma {:induction false} TailJoins(paise: nat)
    requires paise < 100
    ensures Join(Tail(paise), ' ') == if paise == 0 then "only" else "and " + TwoDigits(paise) + " paise only"
  {
    if paise > 0 {
      var t := TwoDigits(paise);
      JoinTwo("and", t);
      JoinTwo("paise", "only");
      JoinConcat(["and", t], ["paise", "only"], ' ');
      assert ["and", t] + ["paise", "only"] == Tail(paise);
      TailText(t);
    }
  }

  lemma {:induction false} TailText(t: string)
    ensures "and" + [' '] + t + [' '] + ("paise" + [' '] + "only") == "and " + t + " paise only"
  {
  }

  /** The frame is recognised by its words, however numbers are read. */
  lemma {:induction false} FrameRead(capital: seq<string>, words: seq<string>, paise: nat, value: seq<string> -> nat)
    requires paise < 100 && capital != [] && Uncapitalise(capital) == words && capital[|capital| - 1] != "paise"
    requires paise > 0 ==> value([TwoDigits(paise)]) == paise
    ensures ReadFrame(["Rupees"] + capital + Tail(paise), value) == Some(100 * value(words) + paise)
  {
    var frame := ["Rupees"] + capital + Tail(paise);
    var body := frame[1..|frame| - 1];
    if paise == 0 {
      assert body == capital;
    } else {
      FrameWithPaise(capital, TwoDigits(paise));
    }
  }

  lemma {:induction false} FrameWithPaise(capital: seq<string>, t: string)
    requires capital != []
    ensures var frame := ["Rupees"] + capital + ["and", t, "paise", "only"];
            var body := frame[1..|frame| - 1];
            |body| > 3 && body[|body| - 1] == "paise" && body[|body| - 2] == t && body[..|body| - 3] == capital
  {
    var frame := ["Rupees"] + capital + ["and", t, "paise", "only"];
    assert frame[1..|frame| - 1] == capital + ["and", t, "paise"];
  }

  /** The reader recovers rupees and paise from the sentence, below twice a thousand crore. */
  lemma {:induction false} SentenceRead(d: Dictionary, rupees: nat, paise: nat)
    requires Knows(d) && rupees < LIMIT && paise < 100
    ensures var read := ReadSentence(d, Sentence(rupees, paise)); read.Some? && read.value == 100 * rupees + paise
  {
    FramedSplits(rupees, paise);
    RupeesRead(d, rupees);
    if paise > 0 { ReadTwo(d, Reading(0, 0), paise); }
    FrameOf(rupees, paise, Reader(d));
  }

  lemma {:induction false} FrameOf(rupees: nat, paise: nat, value: seq<string> -> nat)
    requires rupees < LIMIT && paise < 100 && value(RupeeWords(rupees)) == rupees
    requires paise > 0 ==> value([TwoDigits(paise)]) == paise
    ensures ReadFrame(FrameWords(RupeeWords(rupees), paise), value) == Some(100 * rupees + paise)
  {
    RupeesCapital(rupees);
    WordsFrame(RupeeWords(rupees), rupees, paise, value);
  }

  lemma {:induction false} WordsFrame(words: seq<string>, rupees: nat, paise: nat, value: seq<string> -> nat)
    requires words != [] && Uncapitalise(Capital(words)) == words && Capital(words)[|words| - 1] != "paise"
    requires paise < 100 && value(words) == rupees && (paise > 0 ==> value([TwoDigits(paise)]) == paise)
    ensures ReadFrame(FrameWords(words, paise), value) == Some(100 * rupees + paise)
  {
    FrameRead(Capital(words), words, paise, value);
  }

  lemma {:induction false} LastIsNotPaise(words: seq<string>)
    requires AllWords(words)
    ensures Capital(words)[|words| - 1] != "paise"
  {
    CapitalBack(words);
    assert IsWord(words[|words| - 1]);
    assert "paise"[0] == 'p';
  }

  ghost predicate NoSpaces(words: seq<string>)
  {
    forall i | 0 <= i < |words| :: ' ' !in words[i]
  }

  lemma {:induction false} SplitAtSpaces(words: seq<string>)
    requires words != [] && NoSpaces(words)
    ensures Split(Join(words, ' '), ' ') == words
  {
    SplitJoin(words, ' ');
  }

  lemma {:induction false} CapitalHasNoSpaces(words: seq<string>)
    requires AllWords(words)
    ensures NoSpaces(Capital(words))
  {
    CapitalBack(words);
    forall i | 0 < i < |words| ensures ' ' !in Capital(words)[i] {
      assert words[i] in words;
    }
  }

  lemma {:induction false} RupeesHaveNoSpaces(rupees: nat)
    requires rupees < LIMIT
    ensures NoSpaces(Capital(RupeeWords(rupees)))
  {
    RupeesAreWords(rupees);
    CapitalHasNoSpaces(RupeeWords(rupees));
  }

  lemma {:induction false} FrameHasNoSpaces(words: seq<string>, paise: nat)
    requires paise < 100 && words != [] && NoSpaces(Capital(words))
    ensures NoSpaces(FrameWords(words, paise))
  {
    assert ' ' !in "Rupees" && ' ' !in "and" && ' ' !in "paise" && ' ' !in "only";
    if paise > 0 { TwoIsWord(paise); }
  }

  lemma {:induction false} FrameSplits(words: seq<string>, paise: nat)
    requires words != [] && NoSpaces(Capital(words)) && paise < 100
    ensures Split(Join(FrameWords(words, paise), ' '), ' ') == FrameWords(words, paise)
  {
    FrameHasNoSpaces(words, paise);
    SplitAtSpaces(FrameWords(words, paise));
  }

  lemma {:induction false} FramedSplits(rupees: nat, paise: nat)
    requires rupees < LIMIT && paise < 100
    ensures Split(Framed(RupeesText(rupees), paise), ' ') == FrameWords(RupeeWords(rupees), paise)
  {
    RupeesFramed(rupees, paise);
    RupeesHaveNoSpaces(rupees);
    FrameSplits(RupeeWords(rupees), paise);
  }

  /** Equal texts read alike. */
  lemma {:induction false} SameTextSameReading(d: Dictionary, text: string, other: string, a: nat, b: nat)
    requires ReadSentence(d, text).Some? && ReadSentence(d, text).value == a
    requires ReadSentence(d, other).Some? && ReadSentence(d, other).value == b
    ensures text == other ==> a == b
  {
  }

  /** No two amounts of rupees and paise print alike. */
  lemma {:induction false} SentencesDiffer(rupees: nat, paise: nat, otherRupees: nat, otherPaise: nat)
    requires rupees < LIMIT && paise < 100 && otherRupees < LIMIT && otherPaise < 100
    ensures Sentence(rupees, paise) == Sentence(otherRupees, otherPaise) ==>
              100 * rupees + paise == 100 * otherRupees + otherPaise
  {
    DictionaryExists();
    var d: Dictionary :| Knows(d);
    ReadsDiffer(d, Sentence(rupees, paise), rupees, paise, Sentence(otherRupees, otherPaise), otherRupees, otherPaise);
  }

  lemma {:induction false} ReadsDiffer(d: Dictionary, text: string, rupees: nat, paise: nat,
                                       other: string, otherRupees: nat, otherPaise: nat)
    requires Knows(d) && rupees < LIMIT && paise < 100 && otherRupees < LIMIT && otherPaise < 100
    requires text == Sentence(rupees, paise) && other == Sentence(otherRupees, otherPaise)
    ensures text == other ==> 100 * rupees + paise == 100 * otherRupees + otherPaise
  {
    SentenceRead(d, rupees, paise);
    SentenceRead(d, otherRupees, otherPaise);
    SameTextSameReading(d, text, other, 100 * rupees + paise, 100 * otherRupees + otherPaise);
  }

  lemma {:induction false} PaiseBelow(amount: real)
    requires 0.0 <= amount < 10_000_000_000.0
    ensures 0 <= Paise(amount) <= 1_000_000_000_000 && 0 <= Paise(amount) / 100 < LIMIT
  {
    HalfUpWithin(amount * 100.0, 0);
    HalfUpWithin(amount * 100.0, 1_000_000_000_000);
  }

  /** Reading what is printed for an amount below a thousand crore rupees gives its paise. */
  lemma {:induction false} AmountRead(d: Dictionary, amount: real)
    requires Knows(d) && 0.0 <= amount < 10_000_000_000.0
    ensures var read := ReadSentence(d, Printed(amount)); read.Some? && read.value == Paise(amount)
    ensures 100.0 * amount - 0.5 < Paise(amount) as real <= 100.0 * amount + 0.5
  {
    PaiseBelow(amount);
    SentenceRead(d, Paise(amount) / 100, Paise(amount) % 100);
  }

  /** So two amounts print alike exactly when they round to the same paise. */
  lemma {:induction false} AmountsDiffer(a: real, b: real)
    requires 0.0 <= a < 10_000_000_000.0 && 0.0 <= b < 10_000_000_000.0
    ensures Printed(a) == Printed(b) <==> HalfUp(100.0 * a) == HalfUp(100.0 * b)
  {
    DictionaryExists();
    var d: Dictionary :| Knows(d);
    PaiseBelow(a);
    PaiseBelow(b);
    AmountRead(d, a);
    AmountRead(d, b);
    SameTextSameReading(d, Printed(a), Printed(b), Paise(a), Paise(b));
  }

  /** Below zero the rounding of the quotient takes the next whole rupee and leaves the
      complement of the paise: minus one rupee fifty prints as minus two and fifty paise. */
  lemma {:induction false} NegativeOvershoots(rupees: nat, paise: nat)
    requires 0 < paise < 100
    ensures var rounded := -(100 * rupees + paise);
            rounded / 100 == -(rupees + 1) && rounded % 100 == 100 - paise
    ensures Sentence(-(rupees + 1), 100 - paise) == Framed(Minus(RupeesText(rupees + 1)), 100 - paise)
  {
    MinusText(rupees + 1);
  }

  // ---- the words themselves -------------------------------------------------------

  /** The first letter of the words is a capital, and nothing else is changed. */
  lemma {:induction false} CapitalIs(s: string)
    requires s != "" && 'a' <= s[0] <= 'z'
    ensures Capitalise(s)[1..] == s[1..]
    ensures 'A' <= Capitalise(s)[0] <= 'Z' && Capitalise(s)[0] as int - 'A' as int == s[0] as int - 'a' as int
  {
  }

  /** A number below a hundred is one word, or two with a hyphen. */
  lemma {:induction false} WordsBelowHundred(n: nat)
    requires n < 100
    ensures TwoDigits(n) == if n < 20 then Spell(n)
                            else if n % 10 == 0 then Spell(18 + n / 10)
                            else Spell(18 + n / 10) + "-" + Spell(n % 10)
  {
  }

  lemma {:induction false} OneToFour()
    ensures Spell(1) == "one" && Spell(2) == "two" && Spell(3) == "three" && Spell(4) == "four"
  {
  }

  lemma {:induction false} FiveToEight()
    ensures Spell(5) == "five" && Spell(6) == "six" && Spell(7) == "seven" && Spell(8) == "eight"
  {
  }

  lemma {:induction false} NineToTwelve()
    ensures Spell(9) == "nine" && Spell(10) == "ten" && Spell(11) == "eleven" && Spell(12) == "twelve"
  {
  }

  lemma {:induction false} ThirteenToSixteen()
    ensures Spell(13) == "thirteen" && Spell(14) == "fourteen" && Spell(15) == "fifteen" && Spell(16) == "sixteen"
  {
  }

  lemma {:induction false} SeventeenToNineteen()
    ensures Spell(17) == "seventeen" && Spell(18) == "eighteen" && Spell(19) == "nineteen"
  {
  }

  lemma {:induction false} TwentyToFifty()
    ensures Spell(20) == "twenty" && Spell(21) == "thirty" && Spell(22) == "forty" && Spell(23) == "fifty"
  {
  }

  lemma {:induction false} SixtyToNinety()
    ensures Spell(24) == "sixty" && Spell(25) == "seventy" && Spell(26) == "eighty" && Spell(27) == "ninety"
  {
  }
}
