/** The context assembler of the answer path (`gen_context`, main.py:132-146):
    the ranked rows returned by the similarity search are rendered one after
    the other while the running token count of their contents stays within
    the budget. */
module Context {
  import opened Wrappers
  import opened Tokens

  /** One row of the similarity search: the stored text and its source URL
      (`doc[1]` and `doc[2]` of a `match_documents` row; the row's leading id
      is never read). */
  datatype Row = Row(content: string, url: string)

  /** The default `max_token`. */
  const DefaultMaxToken := 3000

  /** The token count of the rows' contents; URLs are not counted. */
  function ContentTokens(rows: seq<Row>, tokens: string -> nat): nat
  {
    if rows == [] then 0 else ContentTokens(rows[..|rows| - 1], tokens) + tokens(rows[|rows| - 1].content)
  }

  /** The rows' contents, in order. */
  function Contents(rows: seq<Row>): (cs: seq<string>)
    ensures |cs| == |rows|
  {
    if rows == [] then [] else Contents(rows[..|rows| - 1]) + [rows[|rows| - 1].content]
  }

  /** `ContentTokens` is the token total of the contents. */
  lemma {:induction false} ContentTokensIsSumTokens(rows: seq<Row>, tokens: string -> nat)
    ensures ContentTokens(rows, tokens) == SumTokens(Contents(rows), tokens)
    decreases |rows|
  {
    if rows != [] {
      var cs := Contents(rows);
      ContentTokensIsSumTokens(rows[..|rows| - 1], tokens);
      assert cs[..|cs| - 1] == Contents(rows[..|rows| - 1]);
    }
  }

  /** A longer prefix never counts fewer tokens. */
  lemma {:induction false} ContentTokensMonotone(rows: seq<Row>, i: nat, j: nat, tokens: string -> nat)
    requires i <= j <= |rows|
    ensures ContentTokens(rows[..i], tokens) <= ContentTokens(rows[..j], tokens)
    decreases j - i
  {
    if i < j {
      assert rows[..j][..j - 1] == rows[..j - 1];
      ContentTokensMonotone(rows, i, j - 1, tokens);
    }
  }

  /** The number of leading rows that fit the budget: the longest non-empty
      prefix whose content tokens add up to at most `maxToken`, or none. */
  function Budgeted(rows: seq<Row>, tokens: string -> nat, maxToken: int): (n: nat)
    ensures n <= |rows|
  {
    if rows == [] then 0
    else if ContentTokens(rows, tokens) <= maxToken then |rows|
    else Budgeted(rows[..|rows| - 1], tokens, maxToken)
  }

  /** `Budgeted` counts a prefix within the budget, and every longer prefix
      exceeds it. */
  lemma {:induction false} BudgetedSpec(rows: seq<Row>, tokens: string -> nat, maxToken: int)
    ensures var n := Budgeted(rows, tokens, maxToken);
            n > 0 ==> ContentTokens(rows[..n], tokens) <= maxToken
    ensures var n := Budgeted(rows, tokens, maxToken);
            forall m :: n < m <= |rows| ==> ContentTokens(rows[..m], tokens) > maxToken
    decreases |rows|
  {
    if rows != [] {
      assert rows[..|rows|] == rows;
      if ContentTokens(rows, tokens) > maxToken {
        var init := rows[..|rows| - 1];
        BudgetedSpec(init, tokens, maxToken);
        forall m | 0 <= m <= |init|
          ensures init[..m] == rows[..m]
        {
        }
      }
    }
  }

  /** The budget is decided on contents alone: rows whose contents agree fit
      in the same number, whatever their URLs. */
  lemma {:induction false} BudgetedIgnoresUrls(rows: seq<Row>, rows': seq<Row>, tokens: string -> nat, maxToken: int)
    requires |rows| == |rows'|
    requires forall i :: 0 <= i < |rows| ==> rows[i].content == rows'[i].content
    ensures Budgeted(rows, tokens, maxToken) == Budgeted(rows', tokens, maxToken)
    decreases |rows|
  {
    if rows != [] {
      SameContentTokens(rows, rows', tokens);
      BudgetedIgnoresUrls(rows[..|rows| - 1], rows'[..|rows| - 1], tokens, maxToken);
    }
  }

  lemma {:induction false} SameContentTokens(rows: seq<Row>, rows': seq<Row>, tokens: string -> nat)
    requires |rows| == |rows'|
    requires forall i :: 0 <= i < |rows| ==> rows[i].content == rows'[i].content
    ensures ContentTokens(rows, tokens) == ContentTokens(rows', tokens)
    decreases |rows|
  {
    if rows != [] {
      SameContentTokens(rows[..|rows| - 1], rows'[..|rows| - 1], tokens);
    }
  }

  /** One row as it appears in the context: its content, then a `SOURCE:`
      line when the URL is non-empty, then the `---` separator. */
  function RenderRow(row: Row): string
  {
    if row.url != "" then row.content + "\nSOURCE: " + row.url + "\n---\n"
    else row.content + "\n---\n"
  }

  /** The rows rendered one after the other. */
  function Render(rows: seq<Row>): string
  {
    if rows == [] then "" else Render(rows[..|rows| - 1]) + RenderRow(rows[|rows| - 1])
  }

  /** Rendering one more row appends its rendering. */
  lemma RenderSnoc(rows: seq<Row>, row: Row)
    ensures Render(rows + [row]) == Render(rows) + RenderRow(row)
  {
    assert (rows + [row])[..|rows|] == rows;
  }

  /** Kept as a lemma so that its three strings stay abstract where it is
      used: stated inline, the rows' literals unfold into it. */
  lemma AppendAssoc(x: string, y: string, z: string)
    ensures (x + y) + z == x + (y + z)
  {
  }

  /** Rendering is compatible with splitting the rows anywhere. */
  lemma {:induction false} RenderAppend(a: seq<Row>, b: seq<Row>)
    ensures Render(a + b) == Render(a) + Render(b)
    decreases |b|
  {
    if b == [] {
      assert a + b == a;
    } else {
      var b', last := b[..|b| - 1], b[|b| - 1];
      assert a + b == (a + b') + [last];
      assert b == b' + [last];
      RenderSnoc(a + b', last);
      RenderSnoc(b', last);
      RenderAppend(a, b');
      AppendAssoc(Render(a), Render(b'), RenderRow(last));
    }
  }

  /** Each rendered row starts with its content and ends with the separator;
      the URL appears exactly when it is non-empty. */
  lemma RenderRowShape(row: Row)
    ensures var r := RenderRow(row);
            r[..|row.content|] == row.content && r[|r| - 5..] == "\n---\n"
            && (row.url != "" ==> r[|row.content|..|r| - 5] == "\nSOURCE: " + row.url)
            && (row.url == "" ==> |r| == |row.content| + 5)
  {
  }

  /** `gen_context` (main.py:132-146): no context at all for a missing or
      empty result; otherwise the rendering of the rows that fit the budget,
      stopping at the first row that would exceed it. */
  method GenContext(refs: Option<seq<Row>>, tokens: string -> nat, maxToken: int) returns (ctx: Option<string>)
    ensures refs.None? || refs.value == [] ==> ctx.None?
    ensures refs.Some? && refs.value != [] ==>
              ctx == Some(Render(refs.value[..Budgeted(refs.value, tokens, maxToken)]))
  {
    if refs.None? || |refs.value| == 0 {
      return None;
    }
    var rows := refs.value;
    ghost var n := Budgeted(rows, tokens, maxToken);
    BudgetedSpec(rows, tokens, maxToken);
    var contextText := "";
    var tokenCount := 0;
    var i := 0;
    while i < |rows|
      invariant i <= n
      invariant tokenCount == ContentTokens(rows[..i], tokens)
      invariant contextText == Render(rows[..i])
    {
      assert rows[..i + 1][..i] == rows[..i];
      tokenCount := tokenCount + tokens(rows[i].content);
      if tokenCount > maxToken {
        if i < n {
          ContentTokensMonotone(rows, i + 1, n, tokens);
        }
        break;
      }
      contextText := contextText + RenderRow(rows[i]);
      i := i + 1;
    }
    assert i == n;
    return Some(contextText);
  }

  /** `gen_context` called without `max_token` (main.py:132). */
  method GenContextDefault(refs: Option<seq<Row>>, tokens: string -> nat) returns (ctx: Option<string>)
    ensures refs.None? || refs.value == [] ==> ctx.None?
    ensures refs.Some? && refs.value != [] ==>
              ctx == Some(Render(refs.value[..Budgeted(refs.value, tokens, DefaultMaxToken)]))
  {
    ctx := GenContext(refs, tokens, DefaultMaxToken);
  }
}
