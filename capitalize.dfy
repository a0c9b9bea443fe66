/** `capitalizeWords` of the weather client: `str.split(' ')`, upper-case the
    first character of each piece, `join(' ')`. */
module Capitalize {

  /** `toUpperCase` on one character, for the ASCII letters. */
  function Upper(c: char): (u: char)
    ensures !('a' <= u <= 'z')
    ensures u == ' ' <==> c == ' '
  {
    if 'a' <= c <= 'z' then (c as int - 32) as char else c
  }

  /** Upper-casing an upper-cased character changes nothing. */
  lemma UpperIdempotent(c: char)
    ensures Upper(Upper(c)) == Upper(c)
  {
  }

  /** `s.split(' ')`: the pieces between the spaces, in order. There is always
      at least one piece, and a doubled space yields an empty piece. */
  function Split(s: string): (pieces: seq<string>)
    ensures |pieces| >= 1
    ensures forall p :: p in pieces ==> ' ' !in p
  {
    if s == [] then [[]]
    else if s[0] == ' ' then [[]] + Split(s[1..])
    else
      var rest := Split(s[1..]);
      [[s[0]] + rest[0]] + rest[1..]
  }

  /** `pieces.join(' ')`. */
  function Join(pieces: seq<string>): string
  {
    if pieces == [] then []
    else if |pieces| == 1 then pieces[0]
    else pieces[0] + " " + Join(pieces[1..])
  }

  /** `word.charAt(0).toUpperCase() + word.slice(1)`; the empty piece stays empty. */
  function CapitalizeWord(w: string): (r: string)
    ensures |r| == |w|
    ensures forall k :: 0 <= k < |w| ==> r[k] == if k == 0 then Upper(w[k]) else w[k]
  {
    if w == [] then [] else [Upper(w[0])] + w[1..]
  }

  function CapitalizeAll(pieces: seq<string>): (r: seq<string>)
    ensures |r| == |pieces|
    ensures forall k :: 0 <= k < |r| ==> r[k] == CapitalizeWord(pieces[k])
  {
    if pieces == [] then [] else [CapitalizeWord(pieces[0])] + CapitalizeAll(pieces[1..])
  }

  /** `capitalizeWords(str)`. */
  function CapitalizeWords(s: string): string
  {
    Join(CapitalizeAll(Split(s)))
  }

  /** Position `i` of `s` begins a `' '`-separated piece. */
  predicate StartsPiece(s: string, i: nat)
    requires i < |s|
  {
    i == 0 || s[i - 1] == ' '
  }

  /** Splitting and joining again gives back the string. */
  lemma {:induction false} JoinSplit(s: string)
    ensures Join(Split(s)) == s
  {
    if s != [] {
      JoinSplit(s[1..]);
      var rest := Split(s[1..]);
      if s[0] != ' ' {
        JoinCons(s[0], rest[0], rest[1..]);
        assert [rest[0]] + rest[1..] == rest;
      }
    }
  }

  lemma JoinCons(c: char, w: string, more: seq<string>)
    ensures Join([[c] + w] + more) == [c] + Join([w] + more)
  {
    if more != [] {
      assert ([[c] + w] + more)[1..] == more;
      assert ([w] + more)[1..] == more;
    }
  }

  // The proof goes through a character-by-character reading of
  // `capitalizeWords`: walk the string, upper-casing a character exactly when
  // the previous one was a space (or, at the start, when `atStart` holds).

  function CapitalizeFrom(s: string, atStart: bool): (r: string)
    ensures |r| == |s|
  {
    if s == [] then []
    else [if atStart then Upper(s[0]) else s[0]] + CapitalizeFrom(s[1..], s[0] == ' ')
  }

  function CapitalizeIf(w: string, b: bool): string
  {
    if b then CapitalizeWord(w) else w
  }

  lemma {:induction false} SplitCapitalizeFrom(s: string, b: bool)
    ensures var pieces := Split(s);
      Join([CapitalizeIf(pieces[0], b)] + CapitalizeAll(pieces[1..])) == CapitalizeFrom(s, b)
  {
    if s != [] {
      var rest := Split(s[1..]);
      if s[0] == ' ' {
        SplitCapitalizeFrom(s[1..], true);
        assert CapitalizeAll(rest) == [CapitalizeIf(rest[0], true)] + CapitalizeAll(rest[1..]);
        assert ([[]] + CapitalizeAll(rest))[1..] == CapitalizeAll(rest);
      } else {
        SplitCapitalizeFrom(s[1..], false);
        var c := if b then Upper(s[0]) else s[0];
        assert CapitalizeIf([s[0]] + rest[0], b) == [c] + rest[0];
        JoinCons(c, rest[0], CapitalizeAll(rest[1..]));
      }
    }
  }

  lemma CapitalizeWordsIsFrom(s: string)
    ensures CapitalizeWords(s) == CapitalizeFrom(s, true)
  {
    var pieces := Split(s);
    SplitCapitalizeFrom(s, true);
    assert CapitalizeAll(pieces) == [CapitalizeIf(pieces[0], true)] + CapitalizeAll(pieces[1..]);
  }

  lemma {:induction false} CapitalizeFromAt(s: string, b: bool, i: nat)
    requires i < |s|
    ensures CapitalizeFrom(s, b)[i] == if (i == 0 && b) || (i > 0 && s[i - 1] == ' ') then Upper(s[i]) else s[i]
  {
    if i > 0 {
      CapitalizeFromAt(s[1..], s[0] == ' ', i - 1);
    }
  }

  /** `capitalizeWords` keeps the length, and changes a character only by
      upper-casing it, and only at the first position of a piece; every
      space and every other character stays where it was. */
  lemma CapitalizeWordsPointwise(s: string)
    ensures |CapitalizeWords(s)| == |s|
    ensures forall i :: 0 <= i < |s| ==>
              CapitalizeWords(s)[i] == if StartsPiece(s, i) then Upper(s[i]) else s[i]
  {
    CapitalizeWordsIsFrom(s);
    forall i | 0 <= i < |s|
      ensures CapitalizeWords(s)[i] == if StartsPiece(s, i) then Upper(s[i]) else s[i]
    {
      CapitalizeFromAt(s, true, i);
    }
  }

  /** Applying `capitalizeWords` twice is the same as applying it once. */
  lemma CapitalizeWordsIdempotent(s: string)
    ensures CapitalizeWords(CapitalizeWords(s)) == CapitalizeWords(s)
  {
    var t := CapitalizeWords(s);
    CapitalizeWordsPointwise(s);
    CapitalizeWordsPointwise(t);
    forall i | 0 <= i < |t| ensures CapitalizeWords(t)[i] == t[i] {
      assert StartsPiece(t, i) == StartsPiece(s, i);
      UpperIdempotent(s[i]);
    }
  }

  lemma {:induction false} SplitOfCapitalizeFrom(s: string, b: bool)
    ensures var pieces := Split(s);
      Split(CapitalizeFrom(s, b)) == [CapitalizeIf(pieces[0], b)] + CapitalizeAll(pieces[1..])
  {
    if s != [] {
      var rest := Split(s[1..]);
      var t := CapitalizeFrom(s, b);
      assert t[1..] == CapitalizeFrom(s[1..], s[0] == ' ');
      if s[0] == ' ' {
        SplitOfCapitalizeFrom(s[1..], true);
        assert t[0] == ' ';
        assert CapitalizeAll(rest) == [CapitalizeIf(rest[0], true)] + CapitalizeAll(rest[1..]);
      } else {
        SplitOfCapitalizeFrom(s[1..], false);
        assert t[0] != ' ';
      }
    }
  }

  /** The pieces of the result are the capitalized pieces of the input: the
      number of pieces, empty ones included, is unchanged. */
  lemma CapitalizeWordsPieces(s: string)
    ensures Split(CapitalizeWords(s)) == CapitalizeAll(Split(s))
    ensures |Split(CapitalizeWords(s))| == |Split(s)|
  {
    var pieces := Split(s);
    CapitalizeWordsIsFrom(s);
    SplitOfCapitalizeFrom(s, true);
    assert CapitalizeAll(pieces) == [CapitalizeIf(pieces[0], true)] + CapitalizeAll(pieces[1..]);
  }

  /** The weather description of the test data, "light rain", is shown as "Light Rain". */
  lemma LightRainExample(s: string)
    requires s == "light rain"
    ensures CapitalizeWords(s) == "Light Rain"
  {
    CapitalizeWordsPointwise(s);
    var t := CapitalizeWords(s);
    forall i | 0 <= i < |s| ensures t[i] == "Light Rain"[i] {
      assert StartsPiece(s, i) <==> i == 0 || i == 6;
    }
  }
}
