/** The string tokenisation the bot applies to every command line:
    JavaScript's `text.split(" ")` and `tokens.join(" ")`. */
module Tokens {

  const Space: char := ' '

  /** A token produced by splitting never contains the separator. */
  predicate IsWord(w: string) {
    Space !in w
  }

  predicate AllWords(ts: seq<string>) {
    forall i :: 0 <= i < |ts| ==> IsWord(ts[i])
  }

  /** `s.split(" ")`: every single space separates two tokens, so adjacent,
      leading or trailing spaces produce empty tokens, and the empty string
      splits into one empty token. */
  function Split(s: string): (r: seq<string>)
    ensures |r| >= 1
    ensures AllWords(r)
    decreases |s|
  {
    if |s| == 0 then [""]
    else if s[0] == Space then [""] + Split(s[1..])
    else
      var rest := Split(s[1..]);
      [[s[0]] + rest[0]] + rest[1..]
  }

  /** `ts.join(" ")`: the tokens with one space between neighbours. */
  function Join(ts: seq<string>): (r: string)
    ensures |ts| > 0 ==> ts[0] <= r
    ensures |ts| > 1 ==> |r| > |ts[0]| && r[|ts[0]|] == Space
  {
    if |ts| == 0 then ""
    else if |ts| == 1 then ts[0]
    else ts[0] + [Space] + Join(ts[1..])
  }

  /** Joining what was split gives back the original text. */
  lemma {:induction false} JoinSplit(s: string)
    ensures Join(Split(s)) == s
    decreases |s|
  {
    if |s| == 0 {
    } else if s[0] == Space {
      JoinSplit(s[1..]);
      var rest := Split(s[1..]);
      assert Split(s) == [""] + rest;
      assert ([""] + rest)[1..] == rest;
    } else {
      JoinSplit(s[1..]);
      var rest := Split(s[1..]);
      assert Split(s) == [[s[0]] + rest[0]] + rest[1..];
      if |rest| == 1 {
        assert s == [s[0]] + s[1..];
      } else {
        assert ([[s[0]] + rest[0]] + rest[1..])[1..] == rest[1..];
        assert s == [s[0]] + s[1..];
      }
    }
  }

  /** A single word splits into itself. */
  lemma {:induction false} SplitWord(w: string)
    requires IsWord(w)
    ensures Split(w) == [w]
    decreases |w|
  {
    if |w| > 0 {
      assert IsWord(w[1..]) by {
        assert forall k :: 0 <= k < |w[1..]| ==> w[1..][k] == w[k + 1];
      }
      SplitWord(w[1..]);
      assert [w[0]] + w[1..] == w;
    }
  }

  /** A leading word followed by a space splits off as the first token. */
  lemma {:induction false} SplitCons(w: string, rest: string)
    requires IsWord(w)
    ensures Split(w + [Space] + rest) == [w] + Split(rest)
    decreases |w|
  {
    var s := w + [Space] + rest;
    if |w| == 0 {
      assert s == [Space] + rest;
      assert s[1..] == rest;
    } else {
      assert IsWord(w[1..]) by {
        assert forall k :: 0 <= k < |w[1..]| ==> w[1..][k] == w[k + 1];
      }
      SplitCons(w[1..], rest);
      assert s[0] == w[0];
      assert s[1..] == w[1..] + [Space] + rest;
      assert [w[0]] + w[1..] == w;
    }
  }

  /** Two leading words, each followed by a space, split off as the first
      two tokens. */
  lemma SplitCons2(w1: string, w2: string, rest: string)
    requires IsWord(w1) && IsWord(w2)
    ensures Split(w1 + [Space] + w2 + [Space] + rest) == [w1, w2] + Split(rest)
  {
    var tail := w2 + [Space] + rest;
    SplitCons(w2, rest);
    SpaceAssoc(w1, w2, rest);
    SplitCons(w1, tail);
  }

  /** Regrouping a line of three space-separated parts. */
  lemma SpaceAssoc(a: string, b: string, c: string)
    ensures a + [Space] + b + [Space] + c == a + [Space] + (b + [Space] + c)
  {
  }

  /** Splitting what was joined gives back the tokens, provided there is at
      least one token and none of them contains a space. */
  lemma {:induction false} SplitJoin(ts: seq<string>)
    requires |ts| >= 1 && AllWords(ts)
    ensures Split(Join(ts)) == ts
    decreases |ts|
  {
    if |ts| == 1 {
      SplitWord(ts[0]);
    } else {
      assert IsWord(ts[0]);
      SplitCons(ts[0], Join(ts[1..]));
      SplitJoin(ts[1..]);
      assert [ts[0]] + ts[1..] == ts;
    }
  }

  /** The text is its first token, a space, and the join of the remaining
      tokens, whenever it contains a space at all. */
  lemma JoinTail(s: string)
    requires |Split(s)| >= 2
    ensures s == Split(s)[0] + [Space] + Join(Split(s)[1..])
  {
    JoinSplit(s);
  }
}
