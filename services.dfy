/** The two external services seen through the functions that wrap them:
    the embedding gateway (`get_embedding`) and the store adapter's write
    (`create_embedding`). The services themselves are parameters. */
module Services {
  import opened Wrappers
  import opened Text

  /** An embedding vector. Its entries are never inspected; only whether it
      is empty matters. */
  type Vector = seq<real>

  /** The embedding service's answer to one request for a (newline-free)
      text: `None` stands for a falsy response object. */
  type Embedder = string -> Option<Vector>

  /** The parameters of `INSERT INTO documents(content, url, embedding)`. */
  datatype Insert = Insert(content: string, url: string, embedding: Vector)

  /** An open database connection: running an insert yields the id the
      adapter returns. `None` stands for an error raised before the id was
      fetched (printed and swallowed); an error in the commit or the close
      that follow is swallowed too, and the id already fetched is returned. */
  datatype Connection = Connection(run: Insert -> Option<int>)

  /** `get_embedding` (main.py:78-86): the text goes out with every newline
      replaced by a blank; a falsy response becomes the empty vector. */
  function GetEmbedding(embed: Embedder, text: string): Vector
  {
    match embed(ReplaceNewlines(text))
    case Some(v) => v
    case None => []
  }

  /** Two texts that differ only in newline versus blank are the same
      request to the embedding service. */
  lemma GetEmbeddingIgnoresNewlines(embed: Embedder, a: string, b: string)
    requires |a| == |b|
    requires forall i :: 0 <= i < |a| ==> a[i] == b[i] || (a[i] in "\n " && b[i] in "\n ")
    ensures GetEmbedding(embed, a) == GetEmbedding(embed, b)
  {
    ReplaceNewlinesSpec(a);
    ReplaceNewlinesSpec(b);
    assert ReplaceNewlines(a) == ReplaceNewlines(b);
  }

  /** The insert `create_embedding` (main.py:88-107) sends to the store, if
      any: none at all without a connection; otherwise the content with its
      NUL characters removed. */
  function InsertRequest(db: Option<Connection>, content: string, url: string, embedding: Vector): Option<Insert>
  {
    if db.None? then None else Some(Insert(RemoveNul(content), url, embedding))
  }

  /** There is an insert exactly when there is a connection; it carries no
      NUL, every other character of the content as many times as before, and
      the URL and embedding unchanged. */
  lemma InsertRequestSpec(db: Option<Connection>, content: string, url: string, embedding: Vector)
    ensures InsertRequest(db, content, url, embedding).None? <==> db.None?
    ensures var req := InsertRequest(db, content, url, embedding);
            req.Some? ==> '\0' !in req.value.content
                          && multiset(req.value.content) == multiset(content)['\0' := 0]
                          && req.value.url == url && req.value.embedding == embedding
  {
    RemoveNulSpec(content);
  }

  /** `create_embedding`: the id the store returns for the request, or
      `None` without touching the store when there is no connection. */
  function CreateEmbedding(db: Option<Connection>, content: string, url: string, embedding: Vector): Option<int>
  {
    match InsertRequest(db, content, url, embedding)
    case None => None
    case Some(req) => db.value.run(req)
  }

  /** Without a connection nothing is written and no id comes back. */
  lemma CreateEmbeddingNoDb(content: string, url: string, embedding: Vector)
    ensures CreateEmbedding(None, content, url, embedding).None?
    ensures !Stored(CreateEmbedding(None, content, url, embedding))
  {
  }

  /** Python's `if not id`: only a present, non-zero id counts as written. */
  predicate Stored(id: Option<int>)
  {
    id.Some? && id.value != 0
  }
}
