/** Normalisation of the project description in `generateResponse`: lower-case it,
    split it on single spaces, drop stop-words, then drop tokens of two bytes or fewer. */
module Tokenizer {
  import opened PhpStrings

  /** The stop-word list, in the controller's order. */
  const StopWords: seq<string> := [
    "the", "a", "an", "and", "or", "but", "in", "on", "at", "to", "for", "of", "with", "by",
    "i", "you", "it", "he", "she", "we", "they", "is", "are", "was", "were", "have", "has",
    "do", "does", "did", "will", "would", "could", "should", "may", "might", "must"]

  /** A token survives `array_diff` against the stop-words and the `strlen > 2` filter. */
  predicate Keep(t: Bytes)
  {
    t !in StopWords && |t| > 2
  }

  /** `array_diff` followed by `array_filter`: keeps the surviving tokens in their order. */
  function FilterTokens(ts: seq<Bytes>): (r: seq<Bytes>)
    ensures |r| <= |ts|
    ensures forall t :: t in r <==> t in ts && Keep(t)
  {
    if ts == [] then []
    else if Keep(ts[0]) then [ts[0]] + FilterTokens(ts[1..])
    else FilterTokens(ts[1..])
  }

  /** The token list the classifier looks keywords up in. */
  function Tokens(input: Bytes): seq<Bytes>
  {
    FilterTokens(Explode(Lower(input)))
  }

  /** Every surviving token is no stop-word and longer than two bytes; in particular the
      empty pieces that consecutive spaces produce never survive. */
  lemma TokensAreKept(input: Bytes)
    ensures forall t <- Tokens(input) :: t !in StopWords && |t| > 2
    ensures [] !in Tokens(input)
  {
  }

  /** Surviving tokens are space-free pieces of the lower-cased input, and a word that
      itself survives the filters is a token exactly when it is such a piece. */
  lemma TokensArePieces(input: Bytes, w: Bytes)
    requires Keep(w)
    ensures w in Tokens(input) <==> w in Explode(Lower(input))
    ensures w in Tokens(input) ==> ' ' !in w && forall i :: 0 <= i < |w| ==> !IsUpper(w[i])
  {
    if w in Tokens(input) {
      var l := Lower(input);
      LowerIsIdempotent(input);
      PieceOfLowered(l, w);
    }
  }

  /** A piece of an already lowered string holds no upper-case letter. */
  lemma PieceOfLowered(l: Bytes, w: Bytes)
    requires forall i :: 0 <= i < |l| ==> !IsUpper(l[i])
    requires w in Explode(l)
    ensures forall i :: 0 <= i < |w| ==> !IsUpper(w[i])
  {
    ExplodeBytesFromInput(l);
  }

  /** Every byte of every piece of `explode` is a byte of the input. */
  lemma {:induction false} ExplodeBytesFromInput(s: Bytes)
    ensures forall p, i | p in Explode(s) && 0 <= i < |p| :: p[i] in s
  {
    if s != [] {
      ExplodeBytesFromInput(s[1..]);
      var rest := Explode(s[1..]);
      forall p, i | p in Explode(s) && 0 <= i < |p| ensures p[i] in s {
        if s[0] != ' ' && p == [s[0]] + rest[0] {
          if i > 0 { assert p[i] == rest[0][i - 1]; }
        } else {
          assert p in rest;
        }
      }
    }
  }

  /** Inputs that differ only in letter case give the same tokens. */
  lemma TokensIgnoreCase(a: Bytes, b: Bytes)
    requires EqualIgnoringCase(a, b)
    ensures Tokens(a) == Tokens(b)
  {
    LowerIgnoresCase(a, b);
  }
}
