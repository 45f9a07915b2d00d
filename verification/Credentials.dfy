/** The credentials of an account (model/account/credentials.go): the sensitive fields of the auth
    maps of the document are encrypted, at every level of its nested data, and decrypted back.

    Base64, the NaCl box and JSON are functions with their inverses, gathered in a Codec. The
    nonces are given by the level and the field. Go iterates over maps in any order, so
    decryption, where it matters, takes the order as a parameter. */
module Credentials {
  import opened Options

  newtype byte = x: int | 0 <= x < 256

  type Bytes = seq<byte>

  /** What a JSON document holds; text is its bytes. */
  datatype Value = Text(s: Bytes) | Object(m: Map) | Null | Other(id: int)

  type Map = map<string, Value>

  datatype Codec = Codec(box: (Bytes, Bytes) -> Bytes, unbox: (Bytes, Bytes) -> Option<Bytes>,
                         base64: Bytes -> Bytes, unbase64: Bytes -> Option<Bytes>,
                         marshal: Value -> Bytes, unmarshal: Bytes -> Option<Value>)

  type Nonces = (nat, string) -> Bytes

  const NONCE_LEN := 24
  const HEADER: Bytes := [110, 97, 99, 108]

  ghost predicate Inverses(c: Codec) {
    && (forall n, p :: c.unbox(n, c.box(n, p)) == Some(p))
    && (forall b :: c.unbase64(c.base64(b)) == Some(b))
    && (forall v :: c.unmarshal(c.marshal(v)) == Some(v))
  }

  ghost predicate GoodNonces(nonce: Nonces) {
    forall depth, k :: |nonce(depth, k)| == NONCE_LEN
  }

  // ---------------------------------------------------------------- framing and sealing

  const LIMIT := 0x1_0000_0000

  /** `binary.BigEndian.PutUint32` of a length, which keeps its last 32 bits. */
  function BigEndian(n: nat): (b: Bytes)
    ensures |b| == 4
  {
    var n1 := n / 0x100;
    var n2 := n1 / 0x100;
    var n3 := n2 / 0x100;
    [(n3 % 0x100) as byte, (n2 % 0x100) as byte, (n1 % 0x100) as byte, (n % 0x100) as byte]
  }

  lemma BigEndianValue(n: nat)
    ensures FromBigEndian(BigEndian(n)) == n % LIMIT
  {
    var n1 := n / 0x100;
    var n2 := n1 / 0x100;
    var n3 := n2 / 0x100;
    Remainder(n, FromBigEndian(BigEndian(n)), n3 / 0x100);
  }

  lemma Remainder(n: nat, r: nat, q: nat)
    requires n == q * LIMIT + r && r < LIMIT
    ensures r == n % LIMIT
  {
  }

  function FromBigEndian(b: Bytes): nat
    requires |b| >= 4
  {
    b[0] as nat * 0x100_0000 + b[1] as nat * 0x1_0000 + b[2] as nat * 0x100 + b[3] as nat
  }

  function Frame(login: Bytes, password: Bytes): Bytes {
    BigEndian(|login|) + login + password
  }

  datatype Creds = Creds(login: Bytes, password: Bytes) | Bad

  function Unframe(creds: Bytes): Creds {
    if |creds| < 4 then Bad else
    var n, rest := FromBigEndian(creds), creds[4..];
    if |rest| < n then Bad else Creds(rest[..n], rest[n..])
  }

  /** The framing is undone exactly for the logins whose length fits in its four bytes. */
  lemma FrameIff(login: Bytes, password: Bytes)
    ensures Unframe(Frame(login, password)) == Creds(login, password) <==> |login| < LIMIT
  {
    var creds := Frame(login, password);
    assert creds[..4] == BigEndian(|login|);
    assert FromBigEndian(creds) == FromBigEndian(creds[..4]);
    BigEndianValue(|login|);
    assert creds[4..] == login + password;
    if |login| < LIMIT {
      assert (login + password)[..|login|] == login && (login + password)[|login|..] == password;
    }
  }

  /** Header, nonce and box, in base64. */
  function Sealed(c: Codec, nonce: Bytes, plain: Bytes): Bytes {
    c.base64(HEADER + nonce + c.box(nonce, plain))
  }

  function Opened(c: Codec, text: Bytes): Option<Bytes> {
    match c.unbase64(text)
    case None => None
    case Some(b) =>
      if |b| < 4 || b[..4] != HEADER || |b| < 4 + NONCE_LEN then None
      else c.unbox(b[4..4 + NONCE_LEN], b[4 + NONCE_LEN..])
  }

  lemma OpenedSealed(c: Codec, nonce: Bytes, plain: Bytes)
    requires Inverses(c) && |nonce| == NONCE_LEN
    ensures Opened(c, Sealed(c, nonce, plain)) == Some(plain)
  {
    var b := HEADER + nonce + c.box(nonce, plain);
    assert b[..4] == HEADER && b[4..4 + NONCE_LEN] == nonce && b[4 + NONCE_LEN..] == c.box(nonce, plain);
  }

  function DecryptCredentials(c: Codec, text: Bytes): Creds {
    match Opened(c, text)
    case None => Bad
    case Some(plain) => Unframe(plain)
  }

  /** Credentials too short to hold the length of the login: reading it panics. */
  predicate TooShort(c: Codec, text: Bytes) {
    Opened(c, text).Some? && |Opened(c, text).value| < 4
  }

  function DecryptData(c: Codec, text: Bytes): Option<Value> {
    match Opened(c, text)
    case None => None
    case Some(plain) => c.unmarshal(plain)
  }

  // ---------------------------------------------------------------- keys

  const SUFFIX := "_encrypted"
  const CREDENTIALS := "credentials"

  const SECRETS := {"secret", "dob", "code", "answer", "access_token", "refresh_token", "appSecret", "session"}

  predicate HasSuffix(k: string) {
    |SUFFIX| <= |k| && k[|k| - |SUFFIX|..] == SUFFIX
  }

  function Strip(k: string): string
    requires HasSuffix(k)
  {
    k[..|k| - |SUFFIX|]
  }

  lemma StripOf(k: string)
    ensures HasSuffix(k + SUFFIX) && Strip(k + SUFFIX) == k
  {
  }

  lemma SuffixOf(k: string)
    requires HasSuffix(k)
    ensures Strip(k) + SUFFIX == k && |Strip(k)| < |k|
  {
  }

  lemma PlainKeys(k: string)
    requires k in SECRETS || k == "login" || k == "password" || k == CREDENTIALS
    ensures !HasSuffix(k)
  {
    assert |k| < |SUFFIX| || k[|k| - 1] != 'd';
    if HasSuffix(k) {
      LastOfSuffix(k);
    }
  }

  lemma LastOfSuffix(k: string)
    requires HasSuffix(k)
    ensures |k| >= |SUFFIX| && k[|k| - 1] == 'd'
  {
    assert k[|k| - 1] == k[|k| - |SUFFIX|..][|SUFFIX| - 1];
  }

  lemma Apart(k: string)
    requires k in SECRETS
    ensures k != "login" && k != "password" && k != CREDENTIALS
  {
    assert k[0] in "sdcar";
    assert k[0] == 'c' ==> |k| == 4;
  }

  // ---------------------------------------------------------------- an auth map

  function TextOf(m: Map, k: string): Bytes {
    if k in m && m[k].Text? then m[k].s else []
  }

  /** The key a field is stored under. */
  function Renamed(k: string): string {
    if k == "password" then CREDENTIALS + SUFFIX else if k in SECRETS then k + SUFFIX else k
  }

  predicate FromSecret(auth: Map, e: string) {
    HasSuffix(e) && Strip(e) in SECRETS && Strip(e) in auth
  }

  /** The value stored under a key: fields just encrypted win over those that already were. */
  function StoredAt(c: Codec, nonce: string -> Bytes, auth: Map, e: string): Value
    requires exists k :: k in auth && Renamed(k) == e
  {
    if e == CREDENTIALS + SUFFIX && "password" in auth then
      Text(Sealed(c, nonce(e), Frame(TextOf(auth, "login"), TextOf(auth, "password"))))
    else if FromSecret(auth, e) then
      Text(Sealed(c, nonce(e), c.marshal(auth[Strip(e)])))
    else
      RenamedKeeps(auth, e);
      auth[e]
  }

  lemma RenamedKeeps(auth: Map, e: string)
    requires exists k :: k in auth && Renamed(k) == e
    requires !(e == CREDENTIALS + SUFFIX && "password" in auth) && !FromSecret(auth, e)
    ensures e in auth
  {
    var k :| k in auth && Renamed(k) == e;
    if k in SECRETS && k != "password" {
      StripOf(k);
    }
  }

  /** The auth map after encryption. */
  function EncryptedAuth(c: Codec, nonce: string -> Bytes, auth: Map): Map {
    map e | e in (set k | k in auth :: Renamed(k)) :: StoredAt(c, nonce, auth, e)
  }

  /** What decrypting a framed pair sets. */
  function GivenBy(creds: Creds): Map {
    match creds
    case Creds(login, password) => map["login" := Text(login), "password" := Text(password)]
    case Bad => map["login" := Text([]), "password" := Text([])]
  }

  /** What decrypting one field sets; a failure sets empty values. */
  function Gives(c: Codec, k: string, v: Value): Map {
    if !HasSuffix(k) then map[k := v]
    else if !v.Text? then map[Strip(k) := v]
    else if Strip(k) == CREDENTIALS then GivenBy(DecryptCredentials(c, v.s))
    else
      match DecryptData(c, v.s)
      case Some(data) => map[Strip(k) := data]
      case None => map[Strip(k) := Null]
  }

  /** The auth map after decryption, its fields being visited in the given order. */
  function DecryptedIn(c: Codec, auth: Map, order: seq<string>): Map
    requires forall i :: 0 <= i < |order| ==> order[i] in auth
  {
    if order == [] then map[] else
    var n := |order| - 1;
    DecryptedIn(c, auth, order[..n]) + Gives(c, order[n], auth[order[n]])
  }

  ghost predicate IsOrder(order: seq<string>, keys: set<string>) {
    && (forall i :: 0 <= i < |order| ==> order[i] in keys)
    && (forall i, j :: 0 <= i < j < |order| ==> order[i] != order[j])
    && (forall k :: k in keys ==> k in order)
  }

  // ---------------------------------------------------------------- when decryption undoes encryption

  predicate NoEncrypted(auth: Map) {
    forall k :: k in auth ==> !HasSuffix(k)
  }

  predicate LoginOK(auth: Map) {
    "password" in auth ==>
      && auth["password"].Text? && "login" in auth && auth["login"].Text?
      && |auth["login"].s| < LIMIT
  }

  /** No field is already encrypted, and a password is a text that comes with a text login. */
  predicate Restorable(auth: Map) {
    NoEncrypted(auth) && LoginOK(auth)
  }

  /** What a field gives is what the map had. */
  ghost predicate Agrees(given: Map, auth: Map) {
    forall k :: k in given ==> k in auth && given[k] == auth[k]
  }

  lemma StoredIn(c: Codec, nonce: string -> Bytes, auth: Map, k: string)
    requires k in auth
    ensures Renamed(k) in EncryptedAuth(c, nonce, auth)
    ensures EncryptedAuth(c, nonce, auth)[Renamed(k)] == StoredAt(c, nonce, auth, Renamed(k))
  {
  }

  lemma PasswordGives(c: Codec, nonce: string -> Bytes, auth: Map)
    requires Inverses(c) && |nonce(CREDENTIALS + SUFFIX)| == NONCE_LEN && "password" in auth
    ensures var e := CREDENTIALS + SUFFIX;
            e in EncryptedAuth(c, nonce, auth) &&
            Gives(c, e, EncryptedAuth(c, nonce, auth)[e])
            == GivenBy(Unframe(Frame(TextOf(auth, "login"), TextOf(auth, "password"))))
  {
    StoredIn(c, nonce, auth, "password");
    StripOf(CREDENTIALS);
    OpenedSealed(c, nonce(CREDENTIALS + SUFFIX), Frame(TextOf(auth, "login"), TextOf(auth, "password")));
  }

  lemma SecretGives(c: Codec, nonce: string -> Bytes, auth: Map, k: string)
    requires Inverses(c) && |nonce(k + SUFFIX)| == NONCE_LEN && k in auth && k in SECRETS
    ensures Renamed(k) == k + SUFFIX && k + SUFFIX in EncryptedAuth(c, nonce, auth)
    ensures Gives(c, k + SUFFIX, EncryptedAuth(c, nonce, auth)[k + SUFFIX]) == map[k := auth[k]]
  {
    Apart(k);
    StripOf(k);
    StripOf(CREDENTIALS);
    StoredIn(c, nonce, auth, k);
    OpenedSealed(c, nonce(k + SUFFIX), c.marshal(auth[k]));
  }

  /** A field that is neither encrypted nor to be. */
  lemma PlainGives(c: Codec, nonce: string -> Bytes, auth: Map, k: string)
    requires k in auth && !HasSuffix(k) && k != "password" && k !in SECRETS
    ensures Renamed(k) == k && k in EncryptedAuth(c, nonce, auth)
    ensures Gives(c, k, EncryptedAuth(c, nonce, auth)[k]) == map[k := auth[k]]
  {
    StripOf(CREDENTIALS);
    StoredIn(c, nonce, auth, k);
  }

  ghost predicate NoncesOK(nonce: string -> Bytes) {
    forall k :: |nonce(k)| == NONCE_LEN
  }

  /** Each field of a restorable map gives back itself, and nothing that the map had not. */
  lemma FieldRestored(c: Codec, nonce: string -> Bytes, auth: Map, k: string)
    requires Inverses(c) && NoncesOK(nonce) && Restorable(auth) && k in auth
    ensures var e, enc := Renamed(k), EncryptedAuth(c, nonce, auth);
            e in enc && k in Gives(c, e, enc[e]) && Agrees(Gives(c, e, enc[e]), auth)
  {
    if k == "password" {
      PasswordGives(c, nonce, auth);
      FrameIff(TextOf(auth, "login"), TextOf(auth, "password"));
    } else if k in SECRETS {
      SecretGives(c, nonce, auth, k);
    } else {
      PlainGives(c, nonce, auth, k);
    }
  }

  /** Visiting fields that agree with the map, in any order, gives the part of it they set. */
  lemma {:induction false} FoldAgrees(c: Codec, enc: Map, order: seq<string>, auth: Map)
    requires forall i :: 0 <= i < |order| ==> order[i] in enc && Agrees(Gives(c, order[i], enc[order[i]]), auth)
    ensures Agrees(DecryptedIn(c, enc, order), auth)
    ensures forall i, k :: 0 <= i < |order| && k in Gives(c, order[i], enc[order[i]]) ==> k in DecryptedIn(c, enc, order)
    decreases |order|
  {
    if order != [] {
      var n := |order| - 1;
      FoldAgrees(c, enc, order[..n], auth);
      assert forall i :: 0 <= i < n ==> order[..n][i] == order[i];
    }
  }

  lemma Restores(c: Codec, nonce: string -> Bytes, auth: Map, order: seq<string>)
    requires Inverses(c) && NoncesOK(nonce) && Restorable(auth)
    requires IsOrder(order, EncryptedAuth(c, nonce, auth).Keys)
    ensures DecryptedIn(c, EncryptedAuth(c, nonce, auth), order) == auth
  {
    var enc := EncryptedAuth(c, nonce, auth);
    forall i | 0 <= i < |order| ensures order[i] in enc && Agrees(Gives(c, order[i], enc[order[i]]), auth) {
      assert order[i] in enc;
      var k :| k in auth && Renamed(k) == order[i];
      FieldRestored(c, nonce, auth, k);
    }
    FoldAgrees(c, enc, order, auth);
    forall k | k in auth ensures k in DecryptedIn(c, enc, order) {
      FieldRestored(c, nonce, auth, k);
      var i :| 0 <= i < |order| && order[i] == Renamed(k);
    }
  }

  // ---------------------------------------------------------------- and only then

  lemma {:induction false} Provenance(c: Codec, enc: Map, order: seq<string>, k: string)
    requires (forall i :: 0 <= i < |order| ==> order[i] in enc) && k in DecryptedIn(c, enc, order)
    ensures exists i :: 0 <= i < |order| && k in Gives(c, order[i], enc[order[i]])
    decreases |order|
  {
    var n := |order| - 1;
    if k !in Gives(c, order[n], enc[order[n]]) {
      Provenance(c, enc, order[..n], k);
      var i :| 0 <= i < n && k in Gives(c, order[..n][i], enc[order[..n][i]]);
      assert k in Gives(c, order[i], enc[order[i]]);
    }
  }

  /** An encrypted key of the result comes from a longer one of the map. */
  lemma LongerKey(c: Codec, nonce: string -> Bytes, auth: Map, e: string, k: string)
    requires e in EncryptedAuth(c, nonce, auth) && HasSuffix(k)
    requires k in Gives(c, e, EncryptedAuth(c, nonce, auth)[e])
    ensures e in auth && HasSuffix(e) && |e| > |k|
  {
    PlainKeys("login");
    PlainKeys("password");
    var j :| j in auth && Renamed(j) == e;
    if HasSuffix(e) {
      SuffixOf(e);
      assert k == Strip(e);
      if j == "password" {
        StripOf(CREDENTIALS);
        PlainKeys(CREDENTIALS);
      } else if j in SECRETS {
        StripOf(j);
        PlainKeys(j);
      }
    }
  }

  lemma {:induction false} LongestEncrypted(auth: Map, among: set<string>) returns (longest: string)
    requires (exists k :: k in among && HasSuffix(k)) && among <= auth.Keys
    ensures longest in among && HasSuffix(longest)
    ensures forall k :: k in among && HasSuffix(k) ==> |k| <= |longest|
    decreases |among|
  {
    var k :| k in among && HasSuffix(k);
    if j :| j in among - {k} && HasSuffix(j) {
      longest := LongestEncrypted(auth, among - {k});
      if |k| > |longest| {
        longest := k;
      }
    } else {
      longest := k;
    }
  }

  /** A field that is already encrypted is lost under its own name. */
  lemma EncryptedNotRestored(c: Codec, nonce: string -> Bytes, auth: Map, order: seq<string>)
    requires !NoEncrypted(auth) && IsOrder(order, EncryptedAuth(c, nonce, auth).Keys)
    ensures DecryptedIn(c, EncryptedAuth(c, nonce, auth), order) != auth
  {
    var enc := EncryptedAuth(c, nonce, auth);
    var k := LongestEncrypted(auth, auth.Keys);
    if k in DecryptedIn(c, enc, order) {
      Provenance(c, enc, order, k);
      var i :| 0 <= i < |order| && k in Gives(c, order[i], enc[order[i]]);
      LongerKey(c, nonce, auth, order[i], k);
    }
  }

  lemma LastWins(c: Codec, enc: Map, order: seq<string>, k: string)
    requires (forall i :: 0 <= i < |order| ==> order[i] in enc) && order != []
    requires k in Gives(c, order[|order| - 1], enc[order[|order| - 1]])
    ensures k in DecryptedIn(c, enc, order)
    ensures DecryptedIn(c, enc, order)[k] == Gives(c, order[|order| - 1], enc[order[|order| - 1]])[k]
  {
  }

  /** The pair that the framing gives back is not what the map had. */
  lemma PairDiffers(auth: Map, r: Map, given: Creds)
    requires "password" in auth && !LoginOK(auth)
    requires given == Unframe(Frame(TextOf(auth, "login"), TextOf(auth, "password")))
    requires "login" in r && r["login"] == GivenBy(given)["login"]
    requires "password" in r && r["password"] == GivenBy(given)["password"]
    ensures r != auth
  {
    FrameIff(TextOf(auth, "login"), TextOf(auth, "password"));
  }

  /** A login that is no text, or absent, and a password that is no text are lost when the
      credentials are the last field visited. */
  lemma LoginNotRestored(c: Codec, nonce: string -> Bytes, auth: Map, order: seq<string>)
    requires Inverses(c) && NoncesOK(nonce) && !LoginOK(auth)
    requires forall i :: 0 <= i < |order| ==> order[i] in EncryptedAuth(c, nonce, auth)
    requires order != [] && order[|order| - 1] == CREDENTIALS + SUFFIX
    ensures DecryptedIn(c, EncryptedAuth(c, nonce, auth), order) != auth
  {
    var enc := EncryptedAuth(c, nonce, auth);
    PasswordGives(c, nonce, auth);
    LastWins(c, enc, order, "login");
    LastWins(c, enc, order, "password");
    PairDiffers(auth, DecryptedIn(c, enc, order), Unframe(Frame(TextOf(auth, "login"), TextOf(auth, "password"))));
  }

  ghost function AnyOrder(keys: set<string>): (order: seq<string>)
    ensures IsOrder(order, keys)
  {
    if keys == {} then [] else
    var k :| k in keys;
    AnyOrder(keys - {k}) + [k]
  }

  ghost function OrderWithLast(keys: set<string>, last: string): (order: seq<string>)
    requires last in keys
    ensures IsOrder(order, keys) && order != [] && order[|order| - 1] == last
  {
    AnyOrder(keys - {last}) + [last]
  }

  /** Decryption undoes the encryption of an auth map, whatever the order of its fields, exactly
      when no field is already encrypted and a password is a text that comes with a text login. */
  lemma AuthRoundTripIff(c: Codec, nonce: string -> Bytes, auth: Map)
    requires Inverses(c) && NoncesOK(nonce)
    ensures (forall order :: IsOrder(order, EncryptedAuth(c, nonce, auth).Keys) ==>
                             DecryptedIn(c, EncryptedAuth(c, nonce, auth), order) == auth)
            <==> Restorable(auth)
  {
    if Restorable(auth) {
      forall order | IsOrder(order, EncryptedAuth(c, nonce, auth).Keys)
        ensures DecryptedIn(c, EncryptedAuth(c, nonce, auth), order) == auth
      {
        Restores(c, nonce, auth, order);
      }
    } else {
      var order := NotRestored(c, nonce, auth);
    }
  }

  lemma NotRestored(c: Codec, nonce: string -> Bytes, auth: Map) returns (order: seq<string>)
    requires Inverses(c) && NoncesOK(nonce) && !Restorable(auth)
    ensures IsOrder(order, EncryptedAuth(c, nonce, auth).Keys)
    ensures DecryptedIn(c, EncryptedAuth(c, nonce, auth), order) != auth
  {
    var keys := EncryptedAuth(c, nonce, auth).Keys;
    if NoEncrypted(auth) {
      PasswordGives(c, nonce, auth);
      order := OrderWithLast(keys, CREDENTIALS + SUFFIX);
      LoginNotRestored(c, nonce, auth, order);
    } else {
      order := AnyOrder(keys);
      EncryptedNotRestored(c, nonce, auth, order);
    }
  }

  // ---------------------------------------------------------------- nested levels

  type Orders = (nat, Map) -> seq<string>

  ghost predicate GoodOrders(orders: Orders) {
    forall depth, m :: IsOrder(orders(depth, m), m.Keys)
  }

  function Level(nonces: Nonces, depth: nat): string -> Bytes {
    (k: string) => nonces(depth, k)
  }

  predicate HasAuth(m: Map) {
    "auth" in m && m["auth"].Object?
  }

  predicate HasData(m: Map) {
    "data" in m && m["data"].Object?
  }

  /** The document with another auth map, and other data if it has some. */
  function Replaced(m: Map, auth: Map, data: Map): Map {
    var done := m["auth" := Object(auth)];
    if HasData(m) then done["data" := Object(data)] else done
  }

  lemma ReplacedBack(m: Map, auth: Map, data: Map)
    requires HasAuth(m)
    ensures var m' := Replaced(m, auth, data);
            && HasAuth(m') && m'["auth"].m == auth && HasData(m') == HasData(m)
            && (HasData(m) ==> m'["data"].m == data)
    ensures Replaced(Replaced(m, auth, data), m["auth"].m, if HasData(m) then m["data"].m else map[]) == m
  {
  }

  /** The document after `encryptMap`; without an auth map, nothing below is visited. */
  function EncryptedMap(c: Codec, nonces: Nonces, depth: nat, m: Map): Map
    decreases Object(m)
  {
    if !HasAuth(m) then m else
    Replaced(m, EncryptedAuth(c, Level(nonces, depth), m["auth"].m),
             if HasData(m) then EncryptedMap(c, nonces, depth + 1, m["data"].m) else map[])
  }

  ghost function DecryptedMap(c: Codec, orders: Orders, depth: nat, m: Map): Map
    requires GoodOrders(orders)
    decreases Object(m)
  {
    if !HasAuth(m) then m else
    Replaced(m, DecryptedIn(c, m["auth"].m, orders(depth, m["auth"].m)),
             if HasData(m) then DecryptedMap(c, orders, depth + 1, m["data"].m) else map[])
  }

  predicate AllRestorable(m: Map)
    decreases Object(m)
  {
    HasAuth(m) ==> Restorable(m["auth"].m) && (HasData(m) ==> AllRestorable(m["data"].m))
  }

  lemma {:induction false} LevelsRestored(c: Codec, nonces: Nonces, orders: Orders, depth: nat, m: Map)
    requires Inverses(c) && GoodNonces(nonces) && GoodOrders(orders) && AllRestorable(m)
    ensures DecryptedMap(c, orders, depth, EncryptedMap(c, nonces, depth, m)) == m
    decreases Object(m)
  {
    if HasAuth(m) {
      var enc := EncryptedAuth(c, Level(nonces, depth), m["auth"].m);
      Restores(c, Level(nonces, depth), m["auth"].m, orders(depth, enc));
      if HasData(m) {
        LevelsRestored(c, nonces, orders, depth + 1, m["data"].m);
        ReplacedBack(m, enc, EncryptedMap(c, nonces, depth + 1, m["data"].m));
      } else {
        ReplacedBack(m, enc, map[]);
      }
    }
  }

  lemma {:induction false} LevelNotRestored(c: Codec, nonces: Nonces, depth: nat, m: Map) returns (orders: Orders)
    requires Inverses(c) && GoodNonces(nonces) && !AllRestorable(m)
    ensures GoodOrders(orders) && DecryptedMap(c, orders, depth, EncryptedMap(c, nonces, depth, m)) != m
    decreases Object(m)
  {
    var auth, e := m["auth"].m, EncryptedMap(c, nonces, depth, m);
    if !Restorable(auth) {
      var enc := EncryptedAuth(c, Level(nonces, depth), auth);
      var order := NotRestored(c, Level(nonces, depth), auth);
      orders := (d: nat, a: Map) => if a == enc then order else AnyOrder(a.Keys);
      ReplacedBack(m, enc, if HasData(m) then EncryptedMap(c, nonces, depth + 1, m["data"].m) else map[]);
      assert DecryptedMap(c, orders, depth, e)["auth"] == Object(DecryptedIn(c, enc, order));
    } else {
      orders := LevelNotRestored(c, nonces, depth + 1, m["data"].m);
      assert DecryptedMap(c, orders, depth, e)["data"]
          == Object(DecryptedMap(c, orders, depth + 1, EncryptedMap(c, nonces, depth + 1, m["data"].m)));
    }
  }

  /** Decryption undoes the encryption of a document, at every level and in every order, exactly
      when it does for the auth map of each level that is visited. */
  lemma RoundTripIff(c: Codec, nonces: Nonces, m: Map)
    requires Inverses(c) && GoodNonces(nonces)
    ensures (forall orders :: GoodOrders(orders) ==> DecryptedMap(c, orders, 0, EncryptedMap(c, nonces, 0, m)) == m)
            <==> AllRestorable(m)
  {
    if AllRestorable(m) {
      forall orders | GoodOrders(orders) ensures DecryptedMap(c, orders, 0, EncryptedMap(c, nonces, 0, m)) == m {
        LevelsRestored(c, nonces, orders, 0, m);
      }
    } else {
      var orders := LevelNotRestored(c, nonces, 0, m);
    }
  }

  // ---------------------------------------------------------------- the code

  /** The buffer of `EncryptCredentialsWithKey`, filled by three copies. */
  method FrameBuffer(login: Bytes, password: Bytes) returns (creds: array<byte>)
    ensures fresh(creds) && creds[..] == Frame(login, password)
  {
    var prefix := BigEndian(|login|);
    creds := new byte[4 + |login| + |password|];
    Copy(creds, 0, prefix);
    Copy(creds, 4, login);
    Copy(creds, 4 + |login|, password);
    assert creds[..4] == prefix && creds[4..4 + |login|] == login && creds[4 + |login|..] == password;
    assert creds[..] == creds[..4] + creds[4..4 + |login|] + creds[4 + |login|..];
  }

  method Copy(dst: array<byte>, at: nat, src: Bytes)
    requires at + |src| <= dst.Length
    modifies dst
    ensures dst[at..at + |src|] == src
    ensures dst[..at] == old(dst[..at]) && dst[at + |src|..] == old(dst[at + |src|..])
  {
    for i := 0 to |src|
      invariant dst[at..at + i] == src[..i]
      invariant dst[..at] == old(dst[..at]) && dst[at + i..] == old(dst[at + i..])
    {
      dst[at + i] := src[i];
    }
  }

  predicate Sensitive(k: string) {
    k == "password" || k in SECRETS
  }

  /** What encryption stores for a field that was not encrypted yet. */
  function StoredFor(c: Codec, nonce: string -> Bytes, auth: Map, k: string): Value
    requires k in auth
  {
    if k == "password" then
      Text(Sealed(c, nonce(CREDENTIALS + SUFFIX), Frame(TextOf(auth, "login"), TextOf(auth, "password"))))
    else if k in SECRETS then Text(Sealed(c, nonce(k + SUFFIX), c.marshal(auth[k])))
    else auth[k]
  }

  lemma StoredForField(c: Codec, nonce: string -> Bytes, auth: Map, k: string)
    requires k in auth && (Sensitive(k) || !HasSuffix(k))
    ensures StoredAt(c, nonce, auth, Renamed(k)) == StoredFor(c, nonce, auth, k)
  {
    StripOf(CREDENTIALS);
    if k != "password" && k in SECRETS {
      Apart(k);
      StripOf(k);
    }
  }

  /** A field that was already encrypted keeps its value unless a new one took its place. */
  lemma StoredForEncrypted(c: Codec, nonce: string -> Bytes, auth: Map, e: string)
    requires e in auth && HasSuffix(e)
    ensures Renamed(e) == e
    ensures (forall k :: k in auth && Sensitive(k) ==> Renamed(k) != e) ==> StoredAt(c, nonce, auth, e) == auth[e]
  {
    if Sensitive(e) {
      PlainKeys(e);
    }
    SuffixOf(e);
    if FromSecret(auth, e) {
      assert Sensitive(Strip(e));
      Apart(Strip(e));
      assert Renamed(Strip(e)) == e;
    }
  }

  /** What `encryptMap` has built after some of the fields; those already encrypted wait. */
  ghost predicate Encrypting(c: Codec, nonce: string -> Bytes, auth: Map, seen: set<string>, cloned: Map) {
    && (forall k :: k in seen && (Sensitive(k) || !HasSuffix(k)) ==> Renamed(k) in cloned)
    && (forall e :: e in cloned ==> Given(c, nonce, auth, seen, e, cloned[e]))
  }

  ghost predicate Given(c: Codec, nonce: string -> Bytes, auth: Map, seen: set<string>, e: string, v: Value) {
    exists k :: k in seen && k in auth && (Sensitive(k) || !HasSuffix(k)) && Renamed(k) == e && v == StoredFor(c, nonce, auth, k)
  }

  lemma EncryptingMore(c: Codec, nonce: string -> Bytes, auth: Map, seen: set<string>, cloned: Map, k: string)
    requires Encrypting(c, nonce, auth, seen, cloned) && k in auth
    ensures !Sensitive(k) && HasSuffix(k) ==> Encrypting(c, nonce, auth, seen + {k}, cloned)
    ensures Sensitive(k) || !HasSuffix(k) ==>
              Encrypting(c, nonce, auth, seen + {k}, cloned[Renamed(k) := StoredFor(c, nonce, auth, k)])
  {
    forall e | e in cloned ensures Given(c, nonce, auth, seen + {k}, e, cloned[e]) {
      var j :| j in seen && j in auth && (Sensitive(j) || !HasSuffix(j)) && Renamed(j) == e
               && cloned[e] == StoredFor(c, nonce, auth, j);
      assert j in seen + {k};
    }
    if Sensitive(k) || !HasSuffix(k) {
      assert k in seen + {k};
      assert Given(c, nonce, auth, seen + {k}, Renamed(k), StoredFor(c, nonce, auth, k));
    }
  }

  lemma Encrypted(c: Codec, nonce: string -> Bytes, auth: Map, cloned: Map, result: Map)
    requires Encrypting(c, nonce, auth, auth.Keys, cloned)
    requires forall e :: e in result <==> e in cloned || (e in auth && !Sensitive(e) && HasSuffix(e))
    requires forall e :: e in result ==> result[e] == if e in cloned then cloned[e] else auth[e]
    ensures result == EncryptedAuth(c, nonce, auth)
  {
    var want := EncryptedAuth(c, nonce, auth);
    forall e | e in result ensures e in want && result[e] == want[e] {
      if e in cloned {
        var k :| k in auth.Keys && k in auth && (Sensitive(k) || !HasSuffix(k)) && Renamed(k) == e
                 && cloned[e] == StoredFor(c, nonce, auth, k);
        StoredForField(c, nonce, auth, k);
        StoredIn(c, nonce, auth, k);
      } else {
        StoredForEncrypted(c, nonce, auth, e);
        StoredIn(c, nonce, auth, e);
        assert forall k :: k in auth && Sensitive(k) ==> Renamed(k) in cloned;
      }
    }
    forall e | e in want ensures e in result {
      var k :| k in auth && Renamed(k) == e;
      if !Sensitive(k) && HasSuffix(k) {
        StoredForEncrypted(c, nonce, auth, k);
      }
    }
  }

  ghost predicate HasSensitive(auth: Map) {
    exists k :: k in auth && Sensitive(k)
  }

  /** The loop of `encryptMap` over the fields, then over those that were already encrypted. */
  method EncryptAuth(c: Codec, nonce: string -> Bytes, auth: Map) returns (cloned: Map, encrypted: bool)
    ensures cloned == EncryptedAuth(c, nonce, auth)
    ensures encrypted <==> HasSensitive(auth)
  {
    cloned, encrypted := map[], false;
    var encKeys: set<string> := {};
    var left := auth.Keys;
    ghost var seen: set<string> := {};
    while left != {}
      invariant left <= auth.Keys && (forall k :: k in auth ==> k in seen || k in left) && seen <= auth.Keys
      invariant Encrypting(c, nonce, auth, seen, cloned)
      invariant forall k :: k in encKeys <==> k in seen && !Sensitive(k) && HasSuffix(k)
      invariant encrypted <==> exists k :: k in seen && Sensitive(k)
      decreases |left|
    {
      var k :| k in left;
      EncryptingMore(c, nonce, auth, seen, cloned, k);
      if k == "password" {
        var plain := Frame(TextOf(auth, "login"), TextOf(auth, "password"));
        cloned := cloned[CREDENTIALS + SUFFIX := Text(Sealed(c, nonce(CREDENTIALS + SUFFIX), plain))];
        encrypted := true;
      } else if k in SECRETS {
        cloned := cloned[k + SUFFIX := Text(Sealed(c, nonce(k + SUFFIX), c.marshal(auth[k])))];
        encrypted := true;
      } else if HasSuffix(k) {
        encKeys := encKeys + {k};
      } else {
        cloned := cloned[k := auth[k]];
      }
      seen := seen + {k};
      left := left - {k};
    }
    assert seen == auth.Keys;
    ghost var before := cloned;
    cloned := AddMissing(auth, encKeys, cloned);
    Encrypted(c, nonce, auth, before, cloned);
  }

  method AddMissing(auth: Map, encKeys: set<string>, cloned: Map) returns (result: Map)
    requires encKeys <= auth.Keys
    ensures forall e :: e in result <==> e in cloned || e in encKeys
    ensures forall e :: e in result ==> result[e] == if e in cloned then cloned[e] else auth[e]
  {
    result := cloned;
    var left := encKeys;
    while left != {}
      invariant left <= encKeys
      invariant forall e :: e in result <==> e in cloned || (e in encKeys && e !in left)
      invariant forall e :: e in result ==> result[e] == if e in cloned then cloned[e] else auth[e]
      decreases |left|
    {
      var k :| k in left;
      if k !in result {
        result := result[k := auth[k]];
      }
      left := left - {k};
    }
  }

  /** The fields that one field sets when it is decrypted, and whether it could be. */
  method DecryptField(c: Codec, k: string, v: Value) returns (given: Map, decrypted: bool, panicked: bool)
    ensures panicked <==> Panics(c, k, v)
    ensures !panicked ==> given == Gives(c, k, v) && (decrypted <==> Decryptable(c, k, v))
  {
    decrypted, panicked := false, false;
    if !HasSuffix(k) {
      given := map[k := v];
    } else if !v.Text? {
      given := map[Strip(k) := v];
    } else if Strip(k) == CREDENTIALS {
      if TooShort(c, v.s) {
        return map[], false, true;
      }
      var creds := DecryptCredentials(c, v.s);
      given, decrypted := GivenBy(creds), creds.Creds?;
    } else {
      var data := DecryptData(c, v.s);
      given, decrypted := map[Strip(k) := if data.Some? then data.value else Null], data.Some?;
    }
  }

  predicate Panics(c: Codec, k: string, v: Value) {
    HasSuffix(k) && v.Text? && Strip(k) == CREDENTIALS && TooShort(c, v.s)
  }

  predicate SomePanics(c: Codec, auth: Map) {
    exists k :: k in auth && Panics(c, k, auth[k])
  }

  predicate SomeDecryptable(c: Codec, auth: Map) {
    exists k :: k in auth && Decryptable(c, k, auth[k])
  }

  /** The loop of `decryptMap`; whether something was decrypted. */
  method DecryptAuth(c: Codec, auth: Map, order: seq<string>) returns (cloned: Map, decrypted: bool, panicked: bool)
    requires IsOrder(order, auth.Keys)
    ensures panicked <==> SomePanics(c, auth)
    ensures !panicked ==> cloned == DecryptedIn(c, auth, order) && (decrypted <==> SomeDecryptable(c, auth))
  {
    cloned, decrypted, panicked := map[], false, false;
    for n := 0 to |order|
      invariant cloned == DecryptedIn(c, auth, order[..n])
      invariant decrypted <==> exists i :: 0 <= i < n && Decryptable(c, order[i], auth[order[i]])
      invariant forall i :: 0 <= i < n ==> !Panics(c, order[i], auth[order[i]])
    {
      assert order[..n + 1][..n] == order[..n];
      var given, ok, bad := DecryptField(c, order[n], auth[order[n]]);
      if bad {
        return cloned, decrypted, true;
      }
      cloned, decrypted := cloned + given, decrypted || ok;
    }
    assert order[..|order|] == order;
    if SomeDecryptable(c, auth) {
      var k :| k in auth && Decryptable(c, k, auth[k]);
      assert k in order;
    }
    forall k | k in auth ensures !Panics(c, k, auth[k]) {
      assert k in order;
    }
  }

  predicate Decryptable(c: Codec, k: string, v: Value) {
    && HasSuffix(k) && v.Text?
    && if Strip(k) == CREDENTIALS then DecryptCredentials(c, v.s).Creds? else DecryptData(c, v.s).Some?
  }

  ghost predicate SensitiveBelow(m: Map)
    decreases Object(m)
  {
    HasAuth(m) && (HasSensitive(m["auth"].m) || (HasData(m) && SensitiveBelow(m["data"].m)))
  }

  /** `encryptMap`: whether something was encrypted. */
  method EncryptMap(c: Codec, nonces: Nonces, depth: nat, m: Map) returns (r: Map, encrypted: bool)
    ensures r == EncryptedMap(c, nonces, depth, m)
    ensures encrypted <==> SensitiveBelow(m)
    decreases Object(m)
  {
    if !HasAuth(m) {
      return m, false;
    }
    var cloned;
    cloned, encrypted := EncryptAuth(c, Level(nonces, depth), m["auth"].m);
    r := m["auth" := Object(cloned)];
    if HasData(m) {
      var data, inside := EncryptMap(c, nonces, depth + 1, m["data"].m);
      r, encrypted := r["data" := Object(data)], encrypted || inside;
    }
  }

  predicate PanicsBelow(c: Codec, m: Map)
    decreases Object(m)
  {
    HasAuth(m) && (SomePanics(c, m["auth"].m) || (HasData(m) && PanicsBelow(c, m["data"].m)))
  }

  predicate DecryptableBelow(c: Codec, m: Map)
    decreases Object(m)
  {
    HasAuth(m) && (SomeDecryptable(c, m["auth"].m) || (HasData(m) && DecryptableBelow(c, m["data"].m)))
  }

  /** `decryptMap`: whether something was decrypted, at any level that is visited. */
  method DecryptMap(c: Codec, orders: Orders, depth: nat, m: Map) returns (r: Map, decrypted: bool, panicked: bool)
    requires GoodOrders(orders)
    ensures panicked <==> PanicsBelow(c, m)
    ensures !panicked ==> r == DecryptedMap(c, orders, depth, m) && (decrypted <==> DecryptableBelow(c, m))
    decreases Object(m)
  {
    if !HasAuth(m) {
      return m, false, false;
    }
    var cloned;
    cloned, decrypted, panicked := DecryptAuth(c, m["auth"].m, orders(depth, m["auth"].m));
    if panicked {
      return m, decrypted, true;
    }
    r := m["auth" := Object(cloned)];
    if HasData(m) {
      var data, inside;
      data, inside, panicked := DecryptMap(c, orders, depth + 1, m["data"].m);
      r, decrypted := r["data" := Object(data)], decrypted || inside;
    }
  }

  /** Decrypting what was encrypted never panics, even when it does not restore everything. */
  lemma EncryptedSafe(c: Codec, nonce: string -> Bytes, auth: Map)
    requires Inverses(c) && NoncesOK(nonce) && "password" in auth
    ensures !SomePanics(c, EncryptedAuth(c, nonce, auth))
  {
    var enc, e := EncryptedAuth(c, nonce, auth), CREDENTIALS + SUFFIX;
    StoredIn(c, nonce, auth, "password");
    OpenedSealed(c, nonce(e), Frame(TextOf(auth, "login"), TextOf(auth, "password")));
    forall k | k in enc ensures !Panics(c, k, enc[k]) {
      if HasSuffix(k) && Strip(k) == CREDENTIALS {
        SuffixOf(k);
        assert k == e;
      }
    }
  }
}
