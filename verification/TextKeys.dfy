/**
  The two text normalisers of the program: the item-history key
  (`normalize_history_key`) and the row name compared by `verify_duplicate`.
  Case folding and white space are the ASCII ones.
 */
module TextKeys {
  predicate IsSpace(c: char)
  {
    c == ' ' || '\t' <= c <= '\r' || '\U{1c}' <= c <= '\U{1f}'
  }

  function FoldChar(c: char): (r: char)
    ensures IsSpace(r) <==> IsSpace(c)
  {
    if 'A' <= c <= 'Z' then (c as int + 32) as char else c
  }

  function Casefold(s: string): (r: string)
    ensures |r| == |s|
    ensures forall i :: 0 <= i < |s| ==> r[i] == FoldChar(s[i])
  {
    seq(|s|, i requires 0 <= i < |s| => FoldChar(s[i]))
  }

  /** `value.strip()` is empty. */
  predicate Blank(s: string)
  {
    forall i :: 0 <= i < |s| ==> IsSpace(s[i])
  }

  /** The length of the leading run of non-space characters. */
  function WordLength(s: string): (n: nat)
    ensures n <= |s|
    ensures forall i :: 0 <= i < n ==> !IsSpace(s[i])
    ensures n < |s| ==> IsSpace(s[n])
  {
    if s == "" || IsSpace(s[0]) then 0 else 1 + WordLength(s[1..])
  }

  /** `str.split()`: the maximal runs of non-space characters. */
  function Words(s: string): (r: seq<string>)
    decreases |s|
  {
    if s == "" then []
    else if IsSpace(s[0]) then Words(s[1..])
    else [s[..WordLength(s)]] + Words(s[WordLength(s)..])
  }

  /** `" ".join(words)` */
  function Join(words: seq<string>): string
  {
    if words == [] then ""
    else if |words| == 1 then words[0]
    else words[0] + " " + Join(words[1..])
  }

  function NormalizeHistoryKey(s: string): string
  {
    Casefold(Join(Words(s)))
  }

  function NormalizeRowName(s: string): string
  {
    Join(Words(Casefold(s)))
  }

  predicate IsWord(w: string)
  {
    w != "" && forall i :: 0 <= i < |w| ==> !IsSpace(w[i])
  }

  function FoldAll(words: seq<string>): (r: seq<string>)
    ensures |r| == |words|
  {
    seq(|words|, i requires 0 <= i < |words| => Casefold(words[i]))
  }

  lemma {:induction false} WordsAreWords(s: string)
    ensures forall w :: w in Words(s) ==> IsWord(w)
    decreases |s|
  {
    if s != "" {
      if IsSpace(s[0]) {
        WordsAreWords(s[1..]);
      } else {
        WordsAreWords(s[WordLength(s)..]);
      }
    }
  }

  lemma {:induction false} WordLengthIs(s: string, n: nat)
    requires n <= |s|
    requires forall i :: 0 <= i < n ==> !IsSpace(s[i])
    requires n < |s| ==> IsSpace(s[n])
    ensures WordLength(s) == n
  {
    if n > 0 {
      WordLengthIs(s[1..], n - 1);
    }
  }

  lemma {:induction false} WordsOfFold(s: string)
    ensures Words(Casefold(s)) == FoldAll(Words(s))
    decreases |s|
  {
    if s == "" {
    } else if IsSpace(s[0]) {
      assert Casefold(s)[1..] == Casefold(s[1..]);
      WordsOfFold(s[1..]);
    } else {
      var n := WordLength(s);
      WordLengthIs(Casefold(s), n);
      assert Casefold(s)[n..] == Casefold(s[n..]);
      assert Casefold(s)[..n] == Casefold(s[..n]);
      WordsOfFold(s[n..]);
      assert FoldAll([s[..n]] + Words(s[n..])) == [Casefold(s[..n])] + FoldAll(Words(s[n..]));
    }
  }

  lemma {:induction false} JoinOfFold(words: seq<string>)
    ensures Join(FoldAll(words)) == Casefold(Join(words))
  {
    if |words| > 1 {
      JoinOfFold(words[1..]);
      assert FoldAll(words)[1..] == FoldAll(words[1..]);
      assert Casefold(words[0] + " " + Join(words[1..]))
          == Casefold(words[0]) + " " + Casefold(Join(words[1..]));
    }
  }

  /** Folding before or after splitting gives the same key: the overlap check
      and the category memory agree on when two descriptions are the same. */
  lemma NormalizersAgree(s: string)
    ensures NormalizeRowName(s) == NormalizeHistoryKey(s)
  {
    WordsOfFold(s);
    JoinOfFold(Words(s));
  }

  lemma WordThenSpace(w: string, rest: string)
    requires IsWord(w)
    requires rest == "" || IsSpace(rest[0])
    ensures WordLength(w + rest) == |w|
  {
    WordLengthIs(w + rest, |w|);
  }

  lemma {:induction false} WordsOfJoin(words: seq<string>)
    requires forall w :: w in words ==> IsWord(w)
    ensures Words(Join(words)) == words
  {
    if words == [] {
    } else if |words| == 1 {
      var w := words[0];
      WordThenSpace(w, "");
      assert w + "" == w;
      assert w[..|w|] == w && w[|w|..] == "";
      assert words == [w];
    } else {
      var w, tail := words[0], Join(words[1..]);
      WordsOfJoin(words[1..]);
      var rest := " " + tail;
      assert w + " " + tail == w + rest;
      WordThenSpace(w, rest);
      assert (w + rest)[|w|..] == rest && (w + rest)[..|w|] == w;
      assert rest[1..] == tail;
      assert Words(rest) == Words(tail);
      assert words == [w] + words[1..];
    }
  }

  /** A key is its own key, so re-reading stored keys changes nothing. */
  lemma KeyIsIdempotent(s: string)
    ensures NormalizeHistoryKey(NormalizeHistoryKey(s)) == NormalizeHistoryKey(s)
  {
    var words := Words(s);
    WordsAreWords(s);
    WordsOfJoin(words);
    WordsOfFold(Join(words));
    JoinOfFold(words);
    var folded := Casefold(Join(words));
    assert Casefold(folded) == folded;
    assert Words(folded) == FoldAll(words);
  }

  /** The empty key is the key of blank text and of nothing else. */
  lemma {:induction false} EmptyKeyIsBlank(s: string)
    ensures NormalizeHistoryKey(s) == "" <==> Blank(s)
    decreases |s|
  {
    WordsAreWords(s);
    if s == "" {
    } else if IsSpace(s[0]) {
      EmptyKeyIsBlank(s[1..]);
    } else {
      assert Words(s)[0] == s[..WordLength(s)];
      assert |Join(Words(s))| >= |Words(s)[0]|;
    }
  }
}
