/** The decision logic of the Outline REST client: local validation, the
    mapping of response statuses to exceptions, the values derived from
    decoded responses, the key search, the abort-on-first-failure bulk
    delete, and the local fields that renames update.

    Every HTTP exchange is replaced by an input: the status code of the
    response when the client inspects it, a success flag when the client
    only calls `raise_for_status`, or the decoded body of a GET. The
    requests a client issues are recorded, in order, in the ghost field
    `OutlineClient.sent`. */
module Client {
  import opened Exceptions

  datatype Option<T> = None | Some(value: T)

  function GetOr<T>(o: Option<T>, default: T): T
  {
    match o
    case Some(v) => v
    case None => default
  }

  /** What a call can raise: one of the client's own exceptions, or the
      generic HTTP error that `raise_for_status` raises for a failed call. */
  datatype Error = Raised(ex: OutlineException) | StatusError

  datatype Result<T> = Success(value: T) | Failure(error: Error)

  /** The result of a call that returns nothing. */
  type Outcome = Result<()>

  const Done: Outcome := Success(())

  // ---------------------------------------------------------------------
  // Python's str() on integers

  function DigitChar(d: nat): (c: char)
    requires d < 10
    ensures '0' <= c <= '9'
    ensures c as int - '0' as int == d
  {
    ('0' as int + d) as char
  }

  /** Decimal digits of `n`, most significant first, without leading zeros. */
  function NatText(n: nat): (s: string)
    ensures 1 <= |s|
    ensures forall i :: 0 <= i < |s| ==> '0' <= s[i] <= '9'
    ensures s[0] == '0' ==> n == 0
    ensures n < 10 <==> |s| == 1
    decreases n
  {
    if n < 10 then [DigitChar(n)] else NatText(n / 10) + [DigitChar(n % 10)]
  }

  /** The number a string of decimal digits spells, most significant first. */
  function DigitsValue(s: string): int
  {
    if s == [] then 0 else 10 * DigitsValue(s[..|s| - 1]) + (s[|s| - 1] as int - '0' as int)
  }

  /** `NatText(n)` spells `n` in decimal. */
  lemma {:induction false} NatTextValue(n: nat)
    ensures DigitsValue(NatText(n)) == n
    decreases n
  {
    var s := NatText(n);
    if 10 <= n {
      NatTextValue(n / 10);
      assert s[..|s| - 1] == NatText(n / 10);
    }
  }

  /** `str(i)` for an integer `i`: a `-` for negatives, then the decimal
      digits of the magnitude. */
  function Str(i: int): (s: string)
    ensures 1 <= |s|
    ensures s[0] == '-' <==> i < 0
    ensures i >= 0 ==> s == NatText(i) && DigitsValue(s) == i
    ensures i < 0 ==> s == "-" + NatText(-i) && DigitsValue(s[1..]) == -i
  {
    if i < 0 then
      NatTextValue(-i);
      assert ("-" + NatText(-i))[1..] == NatText(-i);
      "-" + NatText(-i)
    else
      NatTextValue(i);
      NatText(i)
  }

  lemma {:induction false} NatTextInjective(a: nat, b: nat)
    requires NatText(a) == NatText(b)
    ensures a == b
    decreases a
  {
    var s := NatText(a);
    if 10 <= a {
      assert 10 <= b;
      var pa, pb := NatText(a / 10), NatText(b / 10);
      assert s == pa + [DigitChar(a % 10)] == pb + [DigitChar(b % 10)];
      assert pa == s[..|s| - 1] == pb;
      NatTextInjective(a / 10, b / 10);
      assert DigitChar(a % 10) == s[|s| - 1] == DigitChar(b % 10);
    } else {
      assert DigitChar(a) == s[0] == DigitChar(b);
    }
  }

  /** Distinct integers have distinct string forms, so a key given by number
      and a key given by its text name the same key exactly when the text is
      the number's string form. */
  lemma StrInjective(a: int, b: int)
    ensures Str(a) == Str(b) <==> a == b
  {
  }

  // ---------------------------------------------------------------------
  // Requests the client issues

  datatype Request =
    | GetServer
    | PutName(name: string)
    | PutHostname(hostname: string)
    | PutPort(port: int)
    | PutDataLimit(bytes: int)
    | GetAccessKeys
    | PostAccessKey(cipher: string)
    | DeleteAccessKey(id: string)
    | PutAccessKeyName(id: string, name: string)
    | PutAccessKeyDataLimit(id: string, bytes: int)

  // ---------------------------------------------------------------------
  // Local validation and status mapping

  const MinPort := 1
  const MaxPort := 65535

  predicate ValidPort(port: int)
  {
    MinPort <= port <= MaxPort
  }

  /** The text of InvalidPort names exactly the range that change_port enforces. */
  lemma InvalidPortMessageStatesRange()
    ensures Message(InvalidPort) ==
            "Invalid port number, must be between " + Str(MinPort) + " and " + Str(MaxPort)
  {
  }

  /** Server rename: only 204 (no content) is success. */
  function RenameOutcome(status: int): (r: Outcome)
    ensures r.Success? <==> status == 204
    ensures r.Failure? ==> r.error == Raised(InvalidName)
  {
    if status != 204 then Failure(Raised(InvalidName)) else Done
  }

  /** Hostname change: 400 and 500 are distinct errors, every other status succeeds. */
  function HostnameOutcome(status: int): (r: Outcome)
    ensures r == Failure(Raised(InvalidHostname)) <==> status == 400
    ensures r == Failure(Raised(ErrorHostname)) <==> status == 500
    ensures r.Success? <==> status != 400 && status != 500
  {
    if status == 400 then Failure(Raised(InvalidHostname))
    else if status == 500 then Failure(Raised(ErrorHostname))
    else Done
  }

  /** Port change: the range check comes first; for a port in range only 409
      is an error. `status` is the response the request would get. */
  function PortOutcome(port: int, status: int): (r: Outcome)
    ensures r == Failure(Raised(InvalidPort)) <==> port < 1 || port > 65535
    ensures ValidPort(port) ==> (r.Failure? <==> status == 409)
    ensures r.Failure? ==> r.error in {Raised(InvalidPort), Raised(PortAlreadyInUse)}
  {
    if port < MinPort || port > MaxPort then Failure(Raised(InvalidPort))
    else if status == 409 then Failure(Raised(PortAlreadyInUse))
    else Done
  }

  /** Data-limit change, for all keys or for one: only 400 is an error. */
  function DataLimitOutcome(status: int): (r: Outcome)
    ensures r.Failure? <==> status == 400
    ensures r.Failure? ==> r.error == Raised(InvalidDataLimit)
  {
    if status == 400 then Failure(Raised(InvalidDataLimit)) else Done
  }

  /** A call checked only by `raise_for_status`: it fails exactly when the call did. */
  function CallOutcome(ok: bool): (r: Outcome)
    ensures r.Success? <==> ok
    ensures r.Failure? ==> r.error == StatusError
  {
    if ok then Done else Failure(StatusError)
  }

  /** The two hostname errors can be told apart by their text. */
  lemma HostnameErrorsDistinct()
    ensures HostnameOutcome(400).Failure? && HostnameOutcome(500).Failure?
    ensures Message(HostnameOutcome(400).error.ex) != Message(HostnameOutcome(500).error.ex)
  {
  }

  // ---------------------------------------------------------------------
  // Server information

  datatype ServerInfo = ServerInfo(
    name: string,
    serverId: string,
    createdAt: int,
    version: string,
    portForNewKeys: int,
    hostnameForKeys: string)

  /** The decoded body of GET /server; a field the server left out is None. */
  datatype ServerJson = ServerJson(
    name: Option<string>,
    serverId: Option<string>,
    createdTimestampMs: Option<int>,
    version: Option<string>,
    portForNewAccessKeys: Option<int>,
    hostnameForAccessKeys: Option<string>)

  const DefaultServerName := "Outline Server"

  /** Each field is taken from the response when present and defaulted otherwise. */
  function DecodeServerInfo(j: ServerJson): (s: ServerInfo)
    ensures j.name.Some? ==> s.name == j.name.value
    ensures j.name.None? ==> s.name == DefaultServerName
    ensures j.serverId.Some? ==> s.serverId == j.serverId.value
    ensures j.serverId.None? ==> s.serverId == ""
    ensures j.createdTimestampMs.Some? ==> s.createdAt == j.createdTimestampMs.value
    ensures j.createdTimestampMs.None? ==> s.createdAt == 0
    ensures j.version.Some? ==> s.version == j.version.value
    ensures j.version.None? ==> s.version == ""
    ensures j.portForNewAccessKeys.Some? ==> s.portForNewKeys == j.portForNewAccessKeys.value
    ensures j.portForNewAccessKeys.None? ==> s.portForNewKeys == 0
    ensures j.hostnameForAccessKeys.Some? ==> s.hostnameForKeys == j.hostnameForAccessKeys.value
    ensures j.hostnameForAccessKeys.None? ==> s.hostnameForKeys == ""
  {
    ServerInfo(
      GetOr(j.name, DefaultServerName),
      GetOr(j.serverId, ""),
      GetOr(j.createdTimestampMs, 0),
      GetOr(j.version, ""),
      GetOr(j.portForNewAccessKeys, 0),
      GetOr(j.hostnameForAccessKeys, ""))
  }

  /** The response that carries every field of `s`. */
  function EncodeServerInfo(s: ServerInfo): (j: ServerJson)
    ensures j.name.Some? && j.serverId.Some? && j.createdTimestampMs.Some?
    ensures j.version.Some? && j.portForNewAccessKeys.Some? && j.hostnameForAccessKeys.Some?
  {
    ServerJson(Some(s.name), Some(s.serverId), Some(s.createdAt), Some(s.version),
               Some(s.portForNewKeys), Some(s.hostnameForKeys))
  }

  /** Decoding a complete response loses nothing. */
  lemma DecodeEncodeServerInfo(s: ServerInfo)
    ensures DecodeServerInfo(EncodeServerInfo(s)) == s
  {
  }

  /** An empty response decodes to the documented defaults. */
  lemma DecodeEmptyServerInfo()
    ensures DecodeServerInfo(ServerJson(None, None, None, None, None, None))
            == ServerInfo("Outline Server", "", 0, "", 0, "")
  {
  }

  // ---------------------------------------------------------------------
  // Access keys

  /** One entry of GET /access-keys (or the body of POST /access-keys);
      a key without a data limit is None. */
  datatype AccessKeyJson = AccessKeyJson(
    id: string,
    name: string,
    password: string,
    port: int,
    cipher: string,
    accessUrl: string,
    dataLimit: Option<int>)

  /** The `bytes` of a key's data limit; a key without one reads as 0. */
  function LimitBytes(k: AccessKeyJson): (b: int)
    ensures k.dataLimit.Some? ==> b == k.dataLimit.value
    ensures k.dataLimit.None? ==> b == 0
  {
    GetOr(k.dataLimit, 0)
  }

  /** The argument of the per-key operations: an id as text, an id as a
      number, or a key handle. */
  datatype KeyRef = ById(id: string) | ByNumber(n: int) | ByHandle(key: OutlineAccessKey)
  {
    /** The id text the operation sends or looks up. */
    function Text(): (s: string)
      ensures ById? ==> s == id
      ensures ByNumber? ==> s == Str(n)
      ensures ByHandle? ==> s == key.id
    {
      match this
      case ById(s) => s
      case ByNumber(n) => Str(n)
      case ByHandle(k) => k.id
    }
  }

  /** Looking up a handle's usage is looking up its id. */
  lemma ByKeyHandle(d: DataTransfer, k: OutlineAccessKey)
    ensures d.ByKey(ByHandle(k)) == d.ByKey(ById(k.id))
  {
  }

  /** Two numeric key references address the same key only if they are equal. */
  lemma ByNumberText(a: int, b: int)
    ensures ByNumber(a).Text() == ByNumber(b).Text() <==> a == b
  {
  }

  /** The search of `key`: the first listed key, in list order, whose id is
      `id`; AccessKeyNotFound when no listed key has that id. */
  method FindKey(keys: seq<AccessKeyJson>, id: string) returns (r: Result<AccessKeyJson>)
    ensures r.Failure? <==> forall i :: 0 <= i < |keys| ==> keys[i].id != id
    ensures r.Failure? ==> r.error == Raised(AccessKeyNotFound)
    ensures r.Success? ==> r.value.id == id
    ensures r.Success? ==>
      exists i :: 0 <= i < |keys| && keys[i] == r.value && forall j :: 0 <= j < i ==> keys[j].id != id
  {
    var i := 0;
    while i < |keys|
      invariant 0 <= i <= |keys|
      invariant forall j :: 0 <= j < i ==> keys[j].id != id
    {
      if keys[i].id == id {
        return Success(keys[i]);
      }
      i := i + 1;
    }
    return Failure(Raised(AccessKeyNotFound));
  }

  /** Index of the first failed call, or the number of calls if none failed. */
  function FirstFailure(outcomes: seq<bool>): (k: nat)
    ensures k <= |outcomes|
    ensures forall i :: 0 <= i < k ==> outcomes[i]
    ensures k < |outcomes| ==> !outcomes[k]
  {
    if outcomes == [] || !outcomes[0] then 0 else 1 + FirstFailure(outcomes[1..])
  }

  /** One delete per listed key, in list order. */
  function DeleteRequests(keys: seq<AccessKeyJson>): (rs: seq<Request>)
    ensures |rs| == |keys|
    ensures forall i :: 0 <= i < |keys| ==> rs[i] == DeleteAccessKey(keys[i].id)
  {
    if keys == [] then [] else [DeleteAccessKey(keys[0].id)] + DeleteRequests(keys[1..])
  }

  lemma DeleteRequestsExtend(keys: seq<AccessKeyJson>, i: nat)
    requires i < |keys|
    ensures DeleteRequests(keys[..i + 1]) == DeleteRequests(keys[..i]) + [DeleteAccessKey(keys[i].id)]
  {
  }

  // ---------------------------------------------------------------------
  // Transfer metrics

  /** Sum of all values of a map, in any order of its keys. */
  ghost function SumValues(m: map<string, int>): int
    decreases |m|
  {
    if m == map[] then 0
    else
      var k :| k in m;
      assert |m - {k}| < |m| by { RemoveShrinks(m, k); }
      m[k] + SumValues(m - {k})
  }

  lemma RemoveShrinks(m: map<string, int>, k: string)
    requires k in m
    ensures |m - {k}| == |m| - 1
  {
  }

  /** The sum does not depend on which key is taken first. */
  lemma {:induction false} SumValuesRemove(m: map<string, int>, k: string)
    requires k in m
    ensures SumValues(m) == m[k] + SumValues(m - {k})
    decreases |m|
  {
    var j :| j in m && SumValues(m) == m[j] + SumValues(m - {j});
    if j != k {
      RemoveShrinks(m, j);
      RemoveShrinks(m, k);
      SumValuesRemove(m - {j}, k);
      SumValuesRemove(m - {k}, j);
      assert m - {j} - {k} == m - {k} - {j};
    }
  }

  /** The decoded body of GET /metrics/transfer: bytes by access-key id. */
  datatype DataTransfer = DataTransfer(bytesTransferredByUserId: map<string, int>)
  {
    /** Total data transferred: the sum of all per-key values. */
    ghost function Total(): (t: int)
      ensures bytesTransferredByUserId == map[] ==> t == 0
    {
      SumValues(bytesTransferredByUserId)
    }

    /** Data transferred by one key: its entry under the key's id text, or 0. */
    function ByKey(key: KeyRef): (b: int)
      ensures key.Text() in bytesTransferredByUserId ==> b == bytesTransferredByUserId[key.Text()]
      ensures key.Text() !in bytesTransferredByUserId ==> b == 0
    {
      if key.Text() in bytesTransferredByUserId then bytesTransferredByUserId[key.Text()] else 0
    }

    /** A key's usage plus everybody else's is the total. */
    lemma TotalSplit(key: KeyRef)
      ensures Total() == ByKey(key) + DataTransfer(bytesTransferredByUserId - {key.Text()}).Total()
    {
      var m := bytesTransferredByUserId;
      if key.Text() in m {
        SumValuesRemove(m, key.Text());
      } else {
        assert m - {key.Text()} == m;
      }
    }

    /** Adding the report of one more key adds its bytes to the total. */
    lemma TotalAdd(id: string, bytes: int)
      requires id !in bytesTransferredByUserId
      ensures DataTransfer(bytesTransferredByUserId[id := bytes]).Total() == Total() + bytes
    {
      var m := bytesTransferredByUserId[id := bytes];
      SumValuesRemove(m, id);
      assert m - {id} == bytesTransferredByUserId;
    }
  }

  /** With no negative counts, no key has used more than the total. */
  lemma {:induction false} ByKeyAtMostTotal(d: DataTransfer, key: KeyRef)
    requires forall id :: id in d.bytesTransferredByUserId ==> d.bytesTransferredByUserId[id] >= 0
    ensures 0 <= d.ByKey(key) <= d.Total()
  {
    d.TotalSplit(key);
    SumValuesNonNegative(d.bytesTransferredByUserId - {key.Text()});
  }

  lemma {:induction false} SumValuesNonNegative(m: map<string, int>)
    requires forall id :: id in m ==> m[id] >= 0
    ensures SumValues(m) >= 0
    decreases |m|
  {
    if m != map[] {
      var k :| k in m;
      SumValuesRemove(m, k);
      RemoveShrinks(m, k);
      SumValuesNonNegative(m - {k});
    }
  }

  // ---------------------------------------------------------------------
  // The session and the key handles

  class OutlineClient {
    /** The server information fetched at construction. */
    var server: ServerInfo
    /** Every request issued through this session, oldest first. */
    ghost var sent: seq<Request>

    /** `info` is the decoded body of GET /server. */
    constructor (info: ServerJson)
      ensures server == DecodeServerInfo(info)
      ensures sent == [GetServer]
    {
      server := DecodeServerInfo(info);
      sent := [GetServer];
    }

    /** The local name is updated before, and regardless of, the status check. */
    method Rename(name: string, status: int) returns (r: Outcome)
      modifies this
      ensures server == old(server).(name := name)
      ensures sent == old(sent) + [PutName(name)]
      ensures r.Success? <==> status == 204
      ensures r.Failure? ==> r.error == Raised(InvalidName)
    {
      sent := sent + [PutName(name)];
      server := server.(name := name);
      r := RenameOutcome(status);
    }

    /** The local server information is not updated. */
    method ChangeHostname(hostname: string, status: int) returns (r: Outcome)
      modifies this`sent
      ensures sent == old(sent) + [PutHostname(hostname)]
      ensures r == HostnameOutcome(status)
    {
      sent := sent + [PutHostname(hostname)];
      r := HostnameOutcome(status);
    }

    /** A port out of range is refused before any request is issued. */
    method ChangePort(port: int, status: int) returns (r: Outcome)
      modifies this`sent
      ensures !ValidPort(port) ==> sent == old(sent) && r == Failure(Raised(InvalidPort))
      ensures ValidPort(port) ==> sent == old(sent) + [PutPort(port)]
      ensures r == PortOutcome(port, status)
    {
      if port < MinPort || port > MaxPort {
        return Failure(Raised(InvalidPort));
      }
      sent := sent + [PutPort(port)];
      r := PortOutcome(port, status);
    }

    method ChangeDataLimit(limit: int, status: int) returns (r: Outcome)
      modifies this`sent
      ensures sent == old(sent) + [PutDataLimit(limit)]
      ensures r == DataLimitOutcome(status)
    {
      sent := sent + [PutDataLimit(limit)];
      r := DataLimitOutcome(status);
    }

    /** Looks a key up in the current listing (the decoded GET /access-keys). */
    method Key(ref: KeyRef, listing: seq<AccessKeyJson>) returns (r: Result<OutlineAccessKey>)
      requires !ref.ByHandle?
      modifies this`sent
      ensures sent == old(sent) + [GetAccessKeys]
      ensures r.Failure? <==> forall i :: 0 <= i < |listing| ==> listing[i].id != ref.Text()
      ensures r.Failure? ==> r.error == Raised(AccessKeyNotFound)
      ensures r.Success? ==> fresh(r.value) && r.value.client == this && r.value.id == ref.Text()
      ensures r.Success? ==>
        exists i :: 0 <= i < |listing| && listing[i] == r.value.Record() &&
                    forall j :: 0 <= j < i ==> listing[j].id != ref.Text()
    {
      sent := sent + [GetAccessKeys];
      var found := FindKey(listing, ref.Text());
      if found.Failure? {
        return Failure(found.error);
      }
      var key := new OutlineAccessKey(this, found.value);
      return Success(key);
    }

    /** Deletes the listed keys in list order and stops at the first failed delete. */
    method DeleteAllKeys(listing: seq<AccessKeyJson>, outcomes: seq<bool>) returns (r: Outcome)
      requires |outcomes| == |listing|
      modifies this`sent
      ensures var k := FirstFailure(outcomes);
              sent == old(sent) + [GetAccessKeys] +
                      DeleteRequests(listing[..if k < |listing| then k + 1 else k])
      ensures r.Success? <==> FirstFailure(outcomes) == |listing|
      ensures r.Failure? ==> r.error == StatusError
    {
      sent := sent + [GetAccessKeys];
      ghost var listed := sent;
      var i := 0;
      while i < |listing|
        invariant 0 <= i <= |listing|
        invariant forall j :: 0 <= j < i ==> outcomes[j]
        invariant sent == listed + DeleteRequests(listing[..i])
      {
        r := DeleteKey(ById(listing[i].id), outcomes[i]);
        DeleteRequestsExtend(listing, i);
        if r.Failure? {
          assert FirstFailure(outcomes) == i;
          return;
        }
        i := i + 1;
      }
      assert listing[..i] == listing;
      r := Done;
    }

    method DeleteKey(ref: KeyRef, ok: bool) returns (r: Outcome)
      modifies this`sent
      ensures sent == old(sent) + [DeleteAccessKey(ref.Text())]
      ensures r == CallOutcome(ok)
    {
      sent := sent + [DeleteAccessKey(ref.Text())];
      r := CallOutcome(ok);
    }

    method RenameKey(ref: KeyRef, name: string, ok: bool) returns (r: Outcome)
      modifies this`sent
      ensures sent == old(sent) + [PutAccessKeyName(ref.Text(), name)]
      ensures r == CallOutcome(ok)
    {
      sent := sent + [PutAccessKeyName(ref.Text(), name)];
      r := CallOutcome(ok);
    }

    method ChangeDataLimitForKey(ref: KeyRef, limit: int, status: int) returns (r: Outcome)
      modifies this`sent
      ensures sent == old(sent) + [PutAccessKeyDataLimit(ref.Text(), limit)]
      ensures r == DataLimitOutcome(status)
    {
      sent := sent + [PutAccessKeyDataLimit(ref.Text(), limit)];
      r := DataLimitOutcome(status);
    }

    /** Creates a key with POST /access-keys and renames it only when a name is
        given. `postOk` and `created` are the POST's outcome and body,
        `renameOk` the outcome of the rename. A failed rename raises, though
        the key then exists on the server under its original name. */
    method New(postOk: bool, created: AccessKeyJson, renameOk: bool,
               cipher: string := DefaultMethod, name: string := "")
      returns (r: Result<OutlineAccessKey>)
      modifies this`sent
      ensures sent == old(sent) + [PostAccessKey(cipher)] +
                      (if postOk && name != "" then [PutAccessKeyName(created.id, name)] else [])
      ensures r.Success? <==> postOk && (name == "" || renameOk)
      ensures r.Failure? ==> r.error == StatusError
      ensures r.Success? ==> fresh(r.value) && r.value.client == this
      ensures r.Success? ==>
        r.value.Record() == if name != "" then created.(name := name) else created
    {
      sent := sent + [PostAccessKey(cipher)];
      if !postOk {
        return Failure(StatusError);
      }
      var key := new OutlineAccessKey(this, created);
      if name != "" {
        var renamed := key.Rename(name, renameOk);
        if renamed.Failure? {
          return Failure(renamed.error);
        }
      }
      return Success(key);
    }
  }

  const DefaultMethod := "aes-192-gcm"

  class OutlineAccessKey {
    const client: OutlineClient
    const id: string
    var name: string
    const password: string
    const port: int
    const cipher: string
    const accessUrl: string
    const dataLimit: Option<int>

    constructor (client: OutlineClient, data: AccessKeyJson)
      ensures this.client == client && Record() == data
    {
      this.client := client;
      id, name, password, port := data.id, data.name, data.password, data.port;
      cipher, accessUrl, dataLimit := data.cipher, data.accessUrl, data.dataLimit;
    }

    /** The handle's current fields as a key record. */
    function Record(): (k: AccessKeyJson)
      reads this
      ensures k.id == id && k.name == name && k.accessUrl == accessUrl
    {
      AccessKeyJson(id, name, password, port, cipher, accessUrl, dataLimit)
    }

    /** The access URL, with `fragment` appended as a `#` fragment when it is not empty. */
    function Url(fragment: string := ""): (u: string)
      ensures fragment == "" ==> u == accessUrl
      ensures fragment != "" ==> |u| == |accessUrl| + 1 + |fragment|
      ensures fragment != "" ==> u[..|accessUrl|] == accessUrl && u[|accessUrl|] == '#'
      ensures fragment != "" ==> u[|accessUrl| + 1..] == fragment
    {
      if fragment == "" then accessUrl else accessUrl + "#" + fragment
    }

    /** Different labels give different URLs. */
    lemma UrlInjective(a: string, b: string)
      ensures Url(a) == Url(b) <==> a == b
    {
    }

    method Delete(ok: bool) returns (r: Outcome)
      modifies client`sent
      ensures client.sent == old(client.sent) + [DeleteAccessKey(id)]
      ensures r == CallOutcome(ok)
    {
      r := client.DeleteKey(ByHandle(this), ok);
    }

    /** The current limit, read from a fresh listing and not from this handle. */
    method Limit(listing: seq<AccessKeyJson>) returns (r: Result<int>)
      modifies client`sent
      ensures client.sent == old(client.sent) + [GetAccessKeys]
      ensures r.Failure? <==> forall i :: 0 <= i < |listing| ==> listing[i].id != id
      ensures r.Failure? ==> r.error == Raised(AccessKeyNotFound)
      ensures r.Success? ==>
        exists i :: 0 <= i < |listing| && listing[i].id == id && r.value == LimitBytes(listing[i]) &&
                    forall j :: 0 <= j < i ==> listing[j].id != id
    {
      var key := client.Key(ById(id), listing);
      if key.Failure? {
        return Failure(key.error);
      }
      r := Success(LimitBytes(key.value.Record()));
    }

    method ChangeDataLimit(limit: int, status: int) returns (r: Outcome)
      modifies client`sent
      ensures client.sent == old(client.sent) + [PutAccessKeyDataLimit(id, limit)]
      ensures r == DataLimitOutcome(status)
    {
      r := client.ChangeDataLimitForKey(ByHandle(this), limit, status);
    }

    /** The local name changes only when the rename call succeeded. */
    method Rename(newName: string, ok: bool) returns (r: Outcome)
      modifies this`name, client`sent
      ensures client.sent == old(client.sent) + [PutAccessKeyName(id, newName)]
      ensures r.Success? <==> ok
      ensures r.Failure? ==> r.error == StatusError
      ensures name == if ok then newName else old(name)
    {
      r := client.RenameKey(ByHandle(this), newName, ok);
      if r.Success? {
        name := newName;
      }
    }
  }
}
