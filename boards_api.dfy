/** The public `GET /api/v1/boards` route of app/api/v1/boards/route.ts:
    bearer-header parsing, key validation against the stored digests (which
    stamps `last_used_at`), and the key client's board list, each outcome
    with its HTTP status. */
module BoardsApi {
  import opened Common
  import opened Types
  import ApiKeys
  import Boards

  const BearerTag: string := "Bearer "

  /** The key in an `authorization` header: `None` when the header is
      absent, empty or not of the form "Bearer <key>". */
  function ParseBearer(header: Option<string>): (key: Option<string>)
    ensures key.Some? <==> header.Some? && StartsWith(header.value, BearerTag)
    ensures key.Some? ==> header.value == BearerTag + key.value
  {
    if !Truthy(header) || !StartsWith(header.value, BearerTag) then None
    else
      assert header.value == header.value[..7] + header.value[7..];
      Some(header.value[7..])
  }

  /** "Bearer " + k is read back as k, whatever k is. */
  lemma ParseBearerRoundTrip(k: string)
    ensures ParseBearer(Some(BearerTag + k)) == Some(k)
  {
    assert (BearerTag + k)[..7] == BearerTag;
    assert (BearerTag + k)[7..] == k;
  }

  /** `.eq("key_hash", digest).is("revoked_at", null)`. */
  function LiveWithHash(digest: string): ApiKeys.ApiKey -> bool
  {
    (k: ApiKeys.ApiKey) => k.keyHash == digest && k.revokedAt.None?
  }

  /** The lookup of validateApiKey. `.single()` succeeds only when exactly one
      row matches; `lookupFails` stands for any other error of the query. */
  function Lookup(rows: seq<ApiKeys.ApiKey>, key: string, sha256: string -> string, lookupFails: bool)
    : (r: Option<ApiKeys.ApiKey>)
    ensures r.Some? <==> !lookupFails && |Filter(rows, LiveWithHash(sha256(key)))| == 1
    ensures r.Some? ==> r.value in rows && r.value.keyHash == sha256(key) && r.value.revokedAt.None?
  {
    var matches := Filter(rows, LiveWithHash(sha256(key)));
    if lookupFails || |matches| != 1 then None
    else
      assert matches[0] in matches;
      Some(matches[0])
  }

  /** A key whose rows are all revoked is rejected. */
  lemma RevokedKeyRejected(rows: seq<ApiKeys.ApiKey>, key: string, sha256: string -> string)
    requires forall k :: k in rows && k.keyHash == sha256(key) ==> k.revokedAt.Some?
    ensures Lookup(rows, key, sha256, false).None?
  {
    var p := LiveWithHash(sha256(key));
    forall i | 0 <= i < |rows| ensures !p(rows[i]) {
      assert rows[i] in rows;
    }
    FilterNone(rows, p);
  }

  /** A freshly generated key, presented as a bearer token, finds its own
      row as long as no other live row carries the same digest. */
  lemma GeneratedKeyAccepted(rows: seq<ApiKeys.ApiKey>, row: ApiKeys.ApiKey, key: string, sha256: string -> string)
    requires row.keyHash == sha256(key) && row.revokedAt.None?
    requires forall k :: k in rows ==> !(k.keyHash == sha256(key) && k.revokedAt.None?)
    ensures ParseBearer(Some(BearerTag + key)) == Some(key)
    ensures Lookup(rows + [row], key, sha256, false) == Some(row)
  {
    ParseBearerRoundTrip(key);
    var p := LiveWithHash(sha256(key));
    forall i | 0 <= i < |rows| ensures !p(rows[i]) {
      assert rows[i] in rows;
    }
    FilterNone(rows, p);
    FilterAppend(rows, [row], p);
    assert Filter([row], p) == [row] by {
      assert [row][1..] == [];
    }
  }

  /** The table after `update({ last_used_at: now }).eq("id", keyId)`. */
  function Touched(rows: seq<ApiKeys.ApiKey>, keyId: Id, now: Timestamp): (r: seq<ApiKeys.ApiKey>)
    ensures |r| == |rows|
    ensures forall i :: 0 <= i < |rows| && rows[i].id != keyId ==> r[i] == rows[i]
    ensures forall i :: 0 <= i < |rows| && rows[i].id == keyId ==> r[i] == rows[i].(lastUsedAt := Some(now))
  {
    seq(|rows|, i requires 0 <= i < |rows| => if rows[i].id == keyId then rows[i].(lastUsedAt := Some(now)) else rows[i])
  }

  /** The projection `select("id, name, description, created_at")`. */
  datatype BoardSummary = BoardSummary(id: Id, name: string, description: Option<string>, createdAt: Timestamp)

  function Summary(b: Board): BoardSummary
  {
    BoardSummary(b.id, b.name, b.description, b.createdAt)
  }

  /** `.eq("client_id", clientId)`. */
  function OfClient(clientId: Id): Board -> bool
  {
    (b: Board) => b.clientId == clientId
  }

  /** The boards of one client, newest first. */
  function ClientBoards(rows: seq<Board>, clientId: Id): (r: seq<Board>)
    ensures multiset(r) == multiset(Filter(rows, OfClient(clientId)))
    ensures Sorted(r, Boards.NewerFirst)
  {
    Boards.NewerFirstTotal();
    Sort(Filter(rows, OfClient(clientId)), Boards.NewerFirst)
  }

  /** A key sees exactly its own client's boards. */
  lemma ClientBoardsExactly(rows: seq<Board>, clientId: Id, b: Board)
    ensures b in ClientBoards(rows, clientId) <==> b in rows && b.clientId == clientId
  {
    SameElements(ClientBoards(rows, clientId), Filter(rows, OfClient(clientId)));
  }

  /** The selected columns of each board, in the same order. */
  function Project(bs: seq<Board>): (r: seq<BoardSummary>)
    ensures |r| == |bs|
    ensures forall i :: 0 <= i < |bs| ==> r[i] == BoardSummary(bs[i].id, bs[i].name, bs[i].description, bs[i].createdAt)
  {
    seq(|bs|, i requires 0 <= i < |bs| => Summary(bs[i]))
  }

  datatype Body = ErrorBody(error: string) | BoardsBody(boards: seq<BoardSummary>)

  datatype Response = Response(status: int, body: Body)

  /** validateApiKey: the matching row, after stamping its `last_used_at`;
      the result of that update is not checked, so `touchFails` leaves the
      table as it was without changing the answer. */
  method ValidateApiKey(keys: ApiKeys.ApiKeyTable, key: string, sha256: string -> string, now: Timestamp,
                        lookupFails: bool, touchFails: bool)
    returns (found: Option<ApiKeys.ApiKey>)
    requires keys.Valid()
    modifies keys
    ensures keys.Valid()
    ensures found == Lookup(old(keys.rows), key, sha256, lookupFails)
    ensures found.None? || touchFails ==> keys.rows == old(keys.rows)
    ensures found.Some? && !touchFails ==> keys.rows == Touched(old(keys.rows), found.value.id, now)
  {
    found := Lookup(keys.rows, key, sha256, lookupFails);
    if found.Some? && !touchFails {
      keys.rows := Touched(keys.rows, found.value.id, now);
    }
  }

  /** Where an exception escapes the handler's body, to be caught and
      answered with 500: nowhere; inside validateApiKey, before its update
      (building the datastore client or the lookup throwing); or after the
      key was validated and stamped (building the second client or the
      boards query throwing). */
  datatype ThrowPoint = NoThrow | InValidation | AfterValidation

  /** GET. The header is parsed before anything that can throw. */
  method Get(header: Option<string>, keys: ApiKeys.ApiKeyTable, boards: seq<Board>, sha256: string -> string,
             now: Timestamp, thrown: ThrowPoint, lookupFails: bool, touchFails: bool, boardsQueryFails: bool)
    returns (resp: Response)
    requires keys.Valid()
    modifies keys
    ensures keys.Valid()
    ensures ParseBearer(header).None? ==>
      resp == Response(401, ErrorBody("API key não fornecida")) && keys.rows == old(keys.rows)
    ensures ParseBearer(header).Some? && thrown == InValidation ==>
      resp == Response(500, ErrorBody("Erro interno do servidor")) && keys.rows == old(keys.rows)
    ensures ParseBearer(header).Some? && thrown != InValidation
            && Lookup(old(keys.rows), ParseBearer(header).value, sha256, lookupFails).None? ==>
      resp == Response(401, ErrorBody("API key inválida")) && keys.rows == old(keys.rows)
    ensures ParseBearer(header).Some? && thrown != InValidation
            && Lookup(old(keys.rows), ParseBearer(header).value, sha256, lookupFails).Some? ==>
      var row := Lookup(old(keys.rows), ParseBearer(header).value, sha256, lookupFails).value;
      && (keys.rows == if touchFails then old(keys.rows) else Touched(old(keys.rows), row.id, now))
      && resp == if thrown == AfterValidation then Response(500, ErrorBody("Erro interno do servidor"))
                 else if boardsQueryFails then Response(500, ErrorBody("Erro ao buscar quadros"))
                 else Response(200, BoardsBody(Project(ClientBoards(boards, row.clientId))))
  {
    var apiKey := ParseBearer(header);
    if apiKey.None? {
      return Response(401, ErrorBody("API key não fornecida"));
    }
    if thrown == InValidation {
      return Response(500, ErrorBody("Erro interno do servidor"));
    }
    var apiKeyData := ValidateApiKey(keys, apiKey.value, sha256, now, lookupFails, touchFails);
    if apiKeyData.None? {
      return Response(401, ErrorBody("API key inválida"));
    }
    if thrown == AfterValidation {
      return Response(500, ErrorBody("Erro interno do servidor"));
    }
    if boardsQueryFails {
      return Response(500, ErrorBody("Erro ao buscar quadros"));
    }
    resp := Response(200, BoardsBody(Project(ClientBoards(boards, apiKeyData.value.clientId))));
  }
}
