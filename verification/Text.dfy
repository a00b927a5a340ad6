/** Joining words with a separator, and taking them apart again. */
module Text {

  function Join(words: seq<string>, sep: char): string
  {
    if words == [] then ""
    else if |words| == 1 then words[0]
    else words[0] + [sep] + Join(words[1..], sep)
  }

  function IndexOf(s: string, c: char): (i: nat)
    ensures i <= |s|
    ensures i < |s| ==> s[i] == c
  {
    if s == [] || s[0] == c then 0 else IndexOf(s[1..], c) + 1
  }

  function Split(s: string, sep: char): seq<string>
  {
    var i := IndexOf(s, sep);
    if i == |s| then [s] else [s[..i]] + Split(s[i + 1..], sep)
  }

  /** The first occurrence is where a word without the separator ends. */
  lemma {:induction false} IndexAfterWord(w: string, rest: string, sep: char)
    requires sep !in w
    ensures IndexOf(w + [sep] + rest, sep) == |w| && IndexOf(w, sep) == |w|
  {
    if w != [] {
      assert w[0] in w;
      assert (w + [sep] + rest)[1..] == w[1..] + [sep] + rest;
      IndexAfterWord(w[1..], rest, sep);
    }
  }

  lemma {:induction false} SplitJoin(words: seq<string>, sep: char)
    requires words != [] && forall i | 0 <= i < |words| :: sep !in words[i]
    ensures Split(Join(words, sep), sep) == words
  {
    if |words| == 1 {
      assert words == [words[0]];
      IndexAfterWord(words[0], [], sep);
    } else {
      var rest := Join(words[1..], sep);
      IndexAfterWord(words[0], rest, sep);
      SplitJoin(words[1..], sep);
      var s := words[0] + [sep] + rest;
      assert s[..|words[0]|] == words[0] && s[|words[0]| + 1..] == rest;
    }
  }

  lemma {:induction false} JoinConcat(xs: seq<string>, ys: seq<string>, sep: char)
    requires xs != [] && ys != []
    ensures Join(xs + ys, sep) == Join(xs, sep) + [sep] + Join(ys, sep)
  {
    if |xs| > 1 {
      assert (xs + ys)[1..] == xs[1..] + ys;
      JoinConcat(xs[1..], ys, sep);
    } else {
      assert (xs + ys)[1..] == ys;
    }
  }
}
