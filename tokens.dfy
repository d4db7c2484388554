/** Token budgets. The tokenizer (`num_tokens_from_string`, tiktoken's
    cl100k_base encoding) is not modelled: every operation takes it as a
    parameter `tokens: string -> nat`. */
module Tokens {

  /** The running total `+= num_tokens_from_string(...)` over `strs`. */
  function SumTokens(strs: seq<string>, tokens: string -> nat): nat
  {
    if strs == [] then 0 else SumTokens(strs[..|strs| - 1], tokens) + tokens(strs[|strs| - 1])
  }

  /** Token totals add up over any split of the list. */
  lemma {:induction false} SumTokensAppend(a: seq<string>, b: seq<string>, tokens: string -> nat)
    ensures SumTokens(a + b, tokens) == SumTokens(a, tokens) + SumTokens(b, tokens)
    decreases |b|
  {
    if b == [] {
      assert a + b == a;
    } else {
      var b' := b[..|b| - 1];
      assert (a + b)[..|a + b| - 1] == a + b';
      SumTokensAppend(a, b', tokens);
    }
  }

  /** A single string counts its own tokens. */
  lemma SumTokensSingle(str: string, tokens: string -> nat)
    ensures SumTokens([str], tokens) == tokens(str)
  {
    assert [str][..0] == [];
  }
}
