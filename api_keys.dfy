/** The API-key actions of lib/actions/api-keys.ts over the `api_keys`
    table: key generation (only the hash and a short prefix are stored),
    the caller's list of live keys, and revocation. The random source and
    SHA-256 are parameters of the operations that use them. */
module ApiKeys {
  import opened Common
  import opened Types

  type Byte = b: int | 0 <= b < 256

  /** A row of `api_keys`. */
  datatype ApiKey = ApiKey(
    id: Id,
    clientId: Id,
    keyHash: string,
    keyPrefix: string,
    name: string,
    createdBy: Id,
    createdAt: Timestamp,
    lastUsedAt: Option<Timestamp>,
    revokedAt: Option<Timestamp>)

  function ApiKeyId(k: ApiKey): Id { k.id }

  // ---------------------------------------------------------------------
  // Key format: "fbn_" + lower-case hex of 32 random bytes
  // ---------------------------------------------------------------------

  predicate IsHexDigit(c: char)
  {
    '0' <= c <= '9' || 'a' <= c <= 'f'
  }

  function HexDigit(n: int): (c: char)
    requires 0 <= n < 16
    ensures IsHexDigit(c)
  {
    if n < 10 then ('0' as int + n) as char else ('a' as int + n - 10) as char
  }

  function HexValue(c: char): (n: int)
    requires IsHexDigit(c)
    ensures 0 <= n < 16
    ensures HexDigit(n) == c
  {
    if c <= '9' then c as int - '0' as int else c as int - 'a' as int + 10
  }

  lemma HexValueOfDigit(n: int)
    requires 0 <= n < 16
    ensures HexValue(HexDigit(n)) == n
  {
  }

  /** `Buffer.toString("hex")`: two lower-case digits per byte, high nibble
      first. */
  function Hex(bytes: seq<Byte>): (h: string)
    ensures |h| == 2 * |bytes|
    ensures forall i :: 0 <= i < |h| ==> IsHexDigit(h[i])
  {
    if bytes == [] then []
    else [HexDigit(bytes[0] / 16), HexDigit(bytes[0] % 16)] + Hex(bytes[1..])
  }

  /** Reads lower-case hex back into bytes; `None` for an odd length or a
      character that is not a hex digit. */
  function UnHex(h: string): (r: Option<seq<Byte>>)
    ensures r.Some? ==> 2 * |r.value| == |h|
    decreases |h|
  {
    if h == [] then Some([])
    else if |h| == 1 || !IsHexDigit(h[0]) || !IsHexDigit(h[1]) then None
    else match UnHex(h[2..])
      case None => None
      case Some(rest) => Some([HexValue(h[0]) * 16 + HexValue(h[1])] + rest)
  }

  /** Hex encoding loses nothing. */
  lemma {:induction false} UnHexHex(bytes: seq<Byte>)
    ensures UnHex(Hex(bytes)) == Some(bytes)
  {
    if bytes != [] {
      var h := Hex(bytes);
      var b := bytes[0];
      assert h[2..] == Hex(bytes[1..]);
      UnHexHex(bytes[1..]);
      HexValueOfDigit(b / 16);
      HexValueOfDigit(b % 16);
      assert HexValue(h[0]) * 16 + HexValue(h[1]) == b;
      assert bytes == [b] + bytes[1..];
    }
  }

  const KeyTag: string := "fbn_"

  /** The key handed to the caller (line 24 of api-keys.ts). */
  function KeyFromBytes(random: seq<Byte>): (key: string)
    requires |random| == 32
    ensures |key| == 68
    ensures StartsWith(key, KeyTag)
    ensures forall i :: 4 <= i < 68 ==> IsHexDigit(key[i])
  {
    KeyTag + Hex(random)
  }

  /** Different random bytes give different keys. */
  lemma KeyFromBytesInjective(a: seq<Byte>, b: seq<Byte>)
    requires |a| == 32 && |b| == 32
    requires KeyFromBytes(a) == KeyFromBytes(b)
    ensures a == b
  {
    assert KeyFromBytes(a)[4..] == Hex(a);
    assert KeyFromBytes(b)[4..] == Hex(b);
    UnHexHex(a);
    UnHexHex(b);
  }

  /** `substring(0, 12)`. */
  function KeyPrefix(key: string): (p: string)
    ensures StartsWith(key, p)
    ensures |p| == if |key| < 12 then |key| else 12
  {
    if |key| < 12 then key else key[..12]
  }

  /** The stored prefix of a generated key is its first 12 characters: the
      tag and eight hex digits, strictly shorter than the key. */
  lemma GeneratedPrefix(random: seq<Byte>)
    requires |random| == 32
    ensures var key := KeyFromBytes(random);
      |KeyPrefix(key)| == 12 && StartsWith(KeyPrefix(key), KeyTag) && KeyPrefix(key) != key
  {
  }

  // ---------------------------------------------------------------------
  // Listing
  // ---------------------------------------------------------------------

  /** `.eq("client_id", clientId).is("revoked_at", null)`. */
  function LiveKeyOf(clientId: Id): ApiKey -> bool
  {
    (k: ApiKey) => k.clientId == clientId && k.revokedAt.None?
  }

  /** `order("created_at", { ascending: false })`. */
  predicate KeyNewerFirst(a: ApiKey, b: ApiKey) { a.createdAt >= b.createdAt }

  lemma KeyNewerFirstTotal()
    ensures Total(KeyNewerFirst)
  {
  }

  /** The profile check shared by generateApiKey and getApiKeys. */
  function CallerClient(session: Session): Result<Id>
  {
    ClientOf(session, "Não autenticado", "Perfil não encontrado")
  }

  /** getApiKeys. `queryFails` stands for the query reporting an error. */
  function GetApiKeys(session: Session, rows: seq<ApiKey>, queryFails: bool): (r: Result<seq<ApiKey>>)
    ensures CallerClient(session).Err? ==> r == Err(CallerClient(session).failure)
    ensures CallerClient(session).Ok? && queryFails ==> r == Err(Message("Erro ao buscar chaves de API"))
    ensures CallerClient(session).Ok? && !queryFails ==>
      && r.Ok?
      && multiset(r.value) == multiset(Filter(rows, LiveKeyOf(CallerClient(session).value)))
      && Sorted(r.value, KeyNewerFirst)
  {
    match CallerClient(session)
    case Err(f) => Err(f)
    case Ok(clientId) =>
      if queryFails then Err(Message("Erro ao buscar chaves de API"))
      else
        KeyNewerFirstTotal();
        Ok(Sort(Filter(rows, LiveKeyOf(clientId)), KeyNewerFirst))
  }

  /** The listing shows exactly the caller client's keys that are not
      revoked. */
  lemma GetApiKeysExactly(session: Session, rows: seq<ApiKey>, k: ApiKey)
    requires CallerClient(session).Ok?
    ensures k in GetApiKeys(session, rows, false).value <==>
      k in rows && k.clientId == CallerClient(session).value && k.revokedAt.None?
  {
    SameElements(GetApiKeys(session, rows, false).value, Filter(rows, LiveKeyOf(CallerClient(session).value)));
  }

  // ---------------------------------------------------------------------
  // Revocation
  // ---------------------------------------------------------------------

  /** The table after `update({ revoked_at: now }).eq("id", keyId)`. */
  function Revoked(rows: seq<ApiKey>, keyId: Id, now: Timestamp): (r: seq<ApiKey>)
    ensures |r| == |rows|
    ensures forall i :: 0 <= i < |rows| && rows[i].id != keyId ==> r[i] == rows[i]
    ensures forall i :: 0 <= i < |rows| && rows[i].id == keyId ==> r[i] == rows[i].(revokedAt := Some(now))
  {
    seq(|rows|, i requires 0 <= i < |rows| => if rows[i].id == keyId then rows[i].(revokedAt := Some(now)) else rows[i])
  }

  /** After revocation the key no longer appears in anybody's list, and
      every other listed key still does. */
  lemma RevokedKeyNotListed(session: Session, rows: seq<ApiKey>, keyId: Id, now: Timestamp, k: ApiKey)
    requires CallerClient(session).Ok?
    ensures k in GetApiKeys(session, Revoked(rows, keyId, now), false).value ==> k.id != keyId
    ensures k.id != keyId ==>
      (k in GetApiKeys(session, Revoked(rows, keyId, now), false).value <==> k in GetApiKeys(session, rows, false).value)
  {
    var after := Revoked(rows, keyId, now);
    GetApiKeysExactly(session, after, k);
    GetApiKeysExactly(session, rows, k);
    if k in after {
      var i :| 0 <= i < |after| && after[i] == k;
      if rows[i].id == keyId {
        assert k.revokedAt.Some?;
      }
    }
    if k.id != keyId && k in rows {
      var i :| 0 <= i < |rows| && rows[i] == k;
      assert after[i] == k;
    }
  }

  /** The `api_keys` table; `id` is the primary key. */
  class ApiKeyTable {
    var rows: seq<ApiKey>

    ghost predicate Valid()
      reads this
    {
      KeysDistinct(rows, ApiKeyId)
    }

    constructor ()
      ensures Valid() && rows == []
    {
      rows := [];
    }

    /** generateApiKey. `random` stands for `crypto.randomBytes(32)` and
        `sha256` for the hex SHA-256 digest. The key itself is returned,
        and only its digest and prefix are stored. */
    method GenerateApiKey(session: Session, name: string, random: seq<Byte>, sha256: string -> string,
                          newId: Id, now: Timestamp, insertFails: bool)
      returns (r: Result<string>)
      requires Valid()
      requires |random| == 32
      requires FreshKey(rows, ApiKeyId, newId)
      modifies this
      ensures Valid()
      ensures CallerClient(session).Err? ==> r == Err(CallerClient(session).failure) && rows == old(rows)
      ensures CallerClient(session).Ok? && insertFails ==>
        r == Err(Message("Erro ao criar chave de API")) && rows == old(rows)
      ensures CallerClient(session).Ok? && !insertFails ==>
        && r == Ok(KeyFromBytes(random))
        && rows == old(rows) + [ApiKey(newId, CallerClient(session).value, sha256(r.value), KeyPrefix(r.value),
                                       name, session.user.value, now, None, None)]
    {
      var client := CallerClient(session);
      if client.Err? {
        return Err(client.failure);
      }
      var apiKey := KeyFromBytes(random);
      var keyHash := sha256(apiKey);
      var keyPrefix := KeyPrefix(apiKey);
      if insertFails {
        return Err(Message("Erro ao criar chave de API"));
      }
      var row := ApiKey(newId, client.value, keyHash, keyPrefix, name, session.user.value, now, None, None);
      AppendKeepsKeysDistinct(rows, row, ApiKeyId);
      rows := rows + [row];
      r := Ok(apiKey);
    }

    /** revokeApiKey: stamps `revoked_at` on the row with that id, whichever
        client owns it. */
    method RevokeApiKey(user: Option<Id>, keyId: Id, now: Timestamp, updateFails: bool) returns (r: Result<()>)
      requires Valid()
      modifies this
      ensures Valid()
      ensures user.None? ==> r == Err(Message("Não autenticado")) && rows == old(rows)
      ensures user.Some? && updateFails ==> r == Err(Message("Erro ao revogar chave de API")) && rows == old(rows)
      ensures user.Some? && !updateFails ==> r == Ok(()) && rows == Revoked(old(rows), keyId, now)
    {
      if user.None? {
        return Err(Message("Não autenticado"));
      }
      if updateFails {
        return Err(Message("Erro ao revogar chave de API"));
      }
      rows := Revoked(rows, keyId, now);
      r := Ok(());
    }
  }
}
