/** The script `test_pg.py`, which repeats the answer path with small
    differences: its context assembler shows contents only, has a smaller
    budget and returns an empty context rather than none; its store adapter
    writes the content without removing NUL characters. Its embedding
    gateway is the one of `Services` (test_pg.py:65-71 and main.py:78-86 do
    the same), and its request is `Prompt.Messages` with a context that is
    always present. */
module TestPg {
  import opened Wrappers
  import opened Text
  import opened Services
  import opened Context
  import opened Prompt

  /** The default `max_token` of this script. */
  const DefaultMaxToken := 1500

  /** One row as this script shows it: the content and the separator. */
  function RenderContent(row: Row): string
  {
    row.content + "\n---\n"
  }

  /** The rows shown one after the other. */
  function RenderContents(rows: seq<Row>): string
  {
    if rows == [] then "" else RenderContents(rows[..|rows| - 1]) + RenderContent(rows[|rows| - 1])
  }

  /** Rows without a URL are shown the same by both scripts. */
  lemma {:induction false} RenderContentsWithoutUrls(rows: seq<Row>)
    requires forall i :: 0 <= i < |rows| ==> rows[i].url == ""
    ensures RenderContents(rows) == Render(rows)
    decreases |rows|
  {
    if rows != [] {
      RenderContentsWithoutUrls(rows[..|rows| - 1]);
    }
  }

  /** Showing a row never depends on its URL. */
  lemma {:induction false} RenderContentsIgnoresUrls(rows: seq<Row>, rows': seq<Row>)
    requires |rows| == |rows'|
    requires forall i :: 0 <= i < |rows| ==> rows[i].content == rows'[i].content
    ensures RenderContents(rows) == RenderContents(rows')
    decreases |rows|
  {
    if rows != [] {
      RenderContentsIgnoresUrls(rows[..|rows| - 1], rows'[..|rows| - 1]);
    }
  }

  /** `gen_context` (test_pg.py:116-124): the contents of the rows that fit
      the budget, each followed by the separator; an empty list gives the
      empty context. */
  method GenContext(refs: seq<Row>, tokens: string -> nat, maxToken: int) returns (ctx: string)
    ensures ctx == RenderContents(refs[..Budgeted(refs, tokens, maxToken)])
    ensures refs == [] ==> ctx == ""
  {
    ghost var n := Budgeted(refs, tokens, maxToken);
    BudgetedSpec(refs, tokens, maxToken);
    var contextText := "";
    var tokenCount := 0;
    var i := 0;
    while i < |refs|
      invariant i <= n
      invariant tokenCount == ContentTokens(refs[..i], tokens)
      invariant contextText == RenderContents(refs[..i])
    {
      assert refs[..i + 1][..i] == refs[..i];
      tokenCount := tokenCount + tokens(refs[i].content);
      if tokenCount > maxToken {
        if i < n {
          ContentTokensMonotone(refs, i + 1, n, tokens);
        }
        break;
      }
      contextText := contextText + RenderContent(refs[i]);
      i := i + 1;
    }
    assert i == n;
    return contextText;
  }

  /** `gen_context` called without `max_token` (test_pg.py:116). */
  method GenContextDefault(refs: seq<Row>, tokens: string -> nat) returns (ctx: string)
    ensures ctx == RenderContents(refs[..Budgeted(refs, tokens, DefaultMaxToken)])
  {
    ctx := GenContext(refs, tokens, DefaultMaxToken);
  }

  /** The two assemblers take the same rows, and on rows without URLs they
      render them the same; on an empty list this one renders the empty text
      (where the one of `main.py` returns none before rendering). */
  lemma ContextVariantsAgree(rows: seq<Row>, tokens: string -> nat, maxToken: int)
    requires forall i :: 0 <= i < |rows| ==> rows[i].url == ""
    ensures var n := Budgeted(rows, tokens, maxToken);
            RenderContents(rows[..n]) == Render(rows[..n])
    ensures rows == [] ==> RenderContents(rows[..Budgeted(rows, tokens, maxToken)]) == ""
  {
    var n := Budgeted(rows, tokens, maxToken);
    RenderContentsWithoutUrls(rows[..n]);
  }

  /** The insert this script's `create_embedding` (test_pg.py:73-92) sends:
      none without a connection; otherwise the content exactly as given. */
  function InsertRequestVerbatim(db: Option<Connection>, content: string, url: string, embedding: Vector): Option<Insert>
  {
    if db.None? then None else Some(Insert(content, url, embedding))
  }

  /** There is an insert exactly when there is a connection, and it carries
      the content unchanged; on content without NUL characters it is the
      insert of `main.py`, and otherwise the two differ. */
  lemma InsertRequestVerbatimSpec(db: Option<Connection>, content: string, url: string, embedding: Vector)
    ensures InsertRequestVerbatim(db, content, url, embedding).None? <==> db.None?
    ensures db.Some? ==> InsertRequestVerbatim(db, content, url, embedding).value.content == content
    ensures InsertRequestVerbatim(db, content, url, embedding) == InsertRequest(db, content, url, embedding)
            <==> db.None? || '\0' !in content
  {
    RemoveNulSpec(content);
  }

  /** `create_embedding` of this script: the id the store returns for the
      verbatim insert, or `None` without touching the store when there is
      no connection. */
  function CreateEmbeddingVerbatim(db: Option<Connection>, content: string, url: string, embedding: Vector): Option<int>
  {
    match InsertRequestVerbatim(db, content, url, embedding)
    case None => None
    case Some(req) => db.value.run(req)
  }

  /** Without a connection nothing is written and no id comes back; with
      one, the result is the store's answer to the verbatim insert. */
  lemma CreateEmbeddingVerbatimSpec(db: Option<Connection>, content: string, url: string, embedding: Vector)
    ensures db.None? ==> CreateEmbeddingVerbatim(db, content, url, embedding).None?
    ensures db.Some? ==> CreateEmbeddingVerbatim(db, content, url, embedding) == db.value.run(Insert(content, url, embedding))
    ensures '\0' !in content ==> CreateEmbeddingVerbatim(db, content, url, embedding) == CreateEmbedding(db, content, url, embedding)
  {
    InsertRequestVerbatimSpec(db, content, url, embedding);
  }

  /** `get_answer` (test_pg.py:126-135): the context here is always a text,
      so the last message never reads `None` unless the context does. */
  lemma TestPromptShape(pre: Preamble, context: string, question: string)
    ensures var ms := Messages(pre, Some(context), question);
            |ms| == 4 && [ms[0].role, ms[1].role, ms[2].role, ms[3].role] == [System, User, Assistant, User]
            && ms[3].content == ContextHeader + context + QuestionHeader + question + "\n"
  {
  }
}
