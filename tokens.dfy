/** Rust's `str::split_whitespace`, which the builder applies to every flag
    variable it reads from the environment. */
module Tokens {

  /** Rust's `char::is_whitespace`: the characters with the Unicode White_Space property. */
  predicate IsWhitespace(c: char) {
    || ('\t' <= c <= '\r')
    || c == ' '
    || c == '\U{0085}'
    || c == '\U{00A0}'
    || c == '\U{1680}'
    || ('\U{2000}' <= c <= '\U{200A}')
    || c == '\U{2028}'
    || c == '\U{2029}'
    || c == '\U{202F}'
    || c == '\U{205F}'
    || c == '\U{3000}'
  }

  predicate NoWhitespace(w: string) {
    forall i :: 0 <= i < |w| ==> !IsWhitespace(w[i])
  }

  /** A token as `split_whitespace` yields it: non-empty and free of whitespace. */
  predicate IsToken(w: string) {
    w != [] && NoWhitespace(w)
  }

  /** The maximal runs of non-whitespace characters of `s`, in order. */
  function Split(s: string): (tokens: seq<string>)
    ensures forall i :: 0 <= i < |tokens| ==> IsToken(tokens[i])
  {
    SplitFrom(s, [])
  }

  /** Splits `s` when the characters of `word` have already been read as the
      beginning of the current token. */
  function SplitFrom(s: string, word: string): (tokens: seq<string>)
    requires NoWhitespace(word)
    ensures forall i :: 0 <= i < |tokens| ==> IsToken(tokens[i])
    decreases |s|
  {
    if s == [] then Flush(word)
    else if IsWhitespace(s[0]) then Flush(word) + SplitFrom(s[1..], [])
    else
      assert NoWhitespace(word + [s[0]]) by {
        forall i | 0 <= i < |word| + 1 ensures !IsWhitespace((word + [s[0]])[i]) {
          if i < |word| { assert (word + [s[0]])[i] == word[i]; }
        }
      }
      SplitFrom(s[1..], word + [s[0]])
  }

  /** The token that a run of characters ends with, if the run is not empty. */
  function Flush(word: string): seq<string> {
    if word == [] then [] else [word]
  }

  /** The characters of `s` that are not whitespace, in order. */
  function Visible(s: string): string {
    if s == [] then []
    else if IsWhitespace(s[0]) then Visible(s[1..])
    else [s[0]] + Visible(s[1..])
  }

  /** The tokens written one after another. */
  function Concat(tokens: seq<string>): string {
    if tokens == [] then [] else tokens[0] + Concat(tokens[1..])
  }

  /** The tokens separated by single spaces: the inverse of `Split`. */
  function Join(tokens: seq<string>): string {
    if tokens == [] then []
    else if |tokens| == 1 then tokens[0]
    else tokens[0] + ([' '] + Join(tokens[1..]))
  }

  lemma {:induction false} ConcatAppend(a: seq<string>, b: seq<string>)
    ensures Concat(a + b) == Concat(a) + Concat(b)
    decreases |a|
  {
    if a == [] {
      assert a + b == b;
    } else {
      assert (a + b)[0] == a[0];
      assert (a + b)[1..] == a[1..] + b;
      ConcatAppend(a[1..], b);
    }
  }

  lemma {:induction false} SplitFromKeepsCharacters(s: string, word: string)
    requires NoWhitespace(word)
    ensures Concat(SplitFrom(s, word)) == word + Visible(s)
    decreases |s|
  {
    if s == [] {
    } else if IsWhitespace(s[0]) {
      SplitFromKeepsCharacters(s[1..], []);
      ConcatAppend(Flush(word), SplitFrom(s[1..], []));
    } else {
      assert NoWhitespace(word + [s[0]]) by {
        forall i | 0 <= i < |word| + 1 ensures !IsWhitespace((word + [s[0]])[i]) {
          if i < |word| { assert (word + [s[0]])[i] == word[i]; }
        }
      }
      SplitFromKeepsCharacters(s[1..], word + [s[0]]);
      assert (word + [s[0]]) + Visible(s[1..]) == word + ([s[0]] + Visible(s[1..]));
    }
  }

  /** Splitting drops the whitespace and nothing else: written one after another,
      the tokens are the non-whitespace characters of the input, in their order. */
  lemma SplitKeepsCharacters(s: string)
    ensures Concat(Split(s)) == Visible(s)
  {
    SplitFromKeepsCharacters(s, []);
  }

  /** A run of non-whitespace characters just extends the current token. */
  lemma {:induction false} SplitFromWord(t: string, rest: string, word: string)
    requires NoWhitespace(t) && NoWhitespace(word)
    ensures NoWhitespace(word + t)
    ensures SplitFrom(t + rest, word) == SplitFrom(rest, word + t)
    decreases |t|
  {
    if t == [] {
      assert t + rest == rest;
      assert word + t == word;
    } else {
      assert (t + rest)[0] == t[0];
      assert (t + rest)[1..] == t[1..] + rest;
      assert NoWhitespace(word + [t[0]]) by {
        forall i | 0 <= i < |word| + 1 ensures !IsWhitespace((word + [t[0]])[i]) {
          if i < |word| { assert (word + [t[0]])[i] == word[i]; }
        }
      }
      assert NoWhitespace(t[1..]) by {
        forall i | 0 <= i < |t| - 1 ensures !IsWhitespace(t[1..][i]) {
          assert t[1..][i] == t[i + 1];
        }
      }
      SplitFromWord(t[1..], rest, word + [t[0]]);
      assert (word + [t[0]]) + t[1..] == word + t;
    }
  }

  /** Splitting undoes joining: tokens joined by single spaces split back into
      the same tokens, in the same order. */
  lemma {:induction false} SplitJoin(tokens: seq<string>)
    requires forall i :: 0 <= i < |tokens| ==> IsToken(tokens[i])
    ensures Split(Join(tokens)) == tokens
    decreases |tokens|
  {
    if tokens == [] {
    } else if |tokens| == 1 {
      SplitFromWord(tokens[0], [], []);
      assert tokens[0] + [] == tokens[0];
      assert [] + tokens[0] == tokens[0];
    } else {
      var x, tail := tokens[0], tokens[1..];
      assert forall i :: 0 <= i < |tail| ==> IsToken(tail[i]) by {
        forall i | 0 <= i < |tail| ensures IsToken(tail[i]) { assert tail[i] == tokens[i + 1]; }
      }
      SplitJoin(tail);
      SplitFromWord(x, [' '] + Join(tail), []);
      assert [] + x == x;
      assert ([' '] + Join(tail))[0] == ' ';
      assert ([' '] + Join(tail))[1..] == Join(tail);
      assert tokens == [x] + tail;
    }
  }

  /** A whitespace character ends the current token: what comes before it and
      what comes after it are split separately. */
  lemma {:induction false} SplitFromAtWhitespace(t: string, c: char, u: string, word: string)
    requires IsWhitespace(c) && NoWhitespace(word)
    ensures SplitFrom(t + [c] + u, word) == SplitFrom(t, word) + SplitFrom(u, [])
    decreases |t|
  {
    if t == [] {
      assert t + [c] + u == [c] + u;
      assert ([c] + u)[1..] == u;
    } else {
      assert (t + [c] + u)[0] == t[0];
      assert (t + [c] + u)[1..] == t[1..] + [c] + u;
      if IsWhitespace(t[0]) {
        SplitFromAtWhitespace(t[1..], c, u, []);
      } else {
        assert NoWhitespace(word + [t[0]]) by {
          forall i | 0 <= i < |word| + 1 ensures !IsWhitespace((word + [t[0]])[i]) {
            if i < |word| { assert (word + [t[0]])[i] == word[i]; }
          }
        }
        SplitFromAtWhitespace(t[1..], c, u, word + [t[0]]);
      }
    }
  }

  /** Tokens never span whitespace: splitting at a whitespace character splits
      each side on its own. */
  lemma SplitAtWhitespace(t: string, c: char, u: string)
    requires IsWhitespace(c)
    ensures Split(t + [c] + u) == Split(t) + Split(u)
  {
    SplitFromAtWhitespace(t, c, u, []);
  }

  /** Tokens are maximal: a run of non-whitespace characters is one token and is
      never cut into pieces. */
  lemma SplitToken(w: string)
    requires IsToken(w)
    ensures Split(w) == [w]
  {
    SplitFromWord(w, [], []);
    assert w + [] == w;
    assert [] + w == w;
  }
}
