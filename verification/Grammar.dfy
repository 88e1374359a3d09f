/** The request grammar after tokenisation (ipc/protocol.go, parseFrame): a loop over the
    fields that sets flags, then checks per message type, against one declarative table. */
module Grammar {
  import opened Options
  import Torrents
  import JsonSize

  datatype Key = Type | Protocol | Id | Hash | Url | DeleteFiles | Ref | Username | Password
               | UseStored | TlsMode | Pin | AllowHttp | SecretAction | Unknown(name: string)

  /** A JSON value as the decoder hands it on; a number that is no 64-bit integer literal
      is Number(None). */
  datatype Value = Null | Text(text: string) | Number(n: Option<int>) | Flag(b: bool) | Composite

  datatype Field = Field(key: Key, value: Value)

  datatype Request = Request(
    kind: string, protocol: int, id: int, hash: string, url: string, deleteFiles: bool, reference: string,
    username: string, password: string, useStored: bool, tlsMode: string, pin: string, allowHttp: bool, secretAction: string)

  datatype Flags = Flags(
    kind: bool, protocol: bool, id: bool, hash: bool, url: bool, delete: bool, reference: bool, username: bool,
    password: bool, useStored: bool, tlsMode: bool, pin: bool, allowHttp: bool, secretAction: bool)

  const BLANK := Request("", 0, 0, "", "", false, "", "", "", false, "", "", false, "")
  const NO_FLAGS := Flags(false, false, false, false, false, false, false, false, false, false, false, false, false, false)

  // ---- single values ----

  predicate RefChar(c: char) {
    'A' <= c <= 'Z' || 'a' <= c <= 'z' || '0' <= c <= '9' || c == '.' || c == '_' || c == ':' || c == '-'
  }

  predicate ValidRef(s: string) {
    1 <= |s| <= 128 && forall i :: 0 <= i < |s| ==> RefChar(s[i])
  }

  predicate ValidPin(s: string) {
    |s| == 64 && forall i :: 0 <= i < |s| ==> '0' <= s[i] <= '9' || 'a' <= s[i] <= 'f'
  }

  predicate ValidConnUrl(u: string) {
    u != "" && JsonSize.ByteLen(u) <= 2048 && forall i :: 0 <= i < |u| ==> u[i] as int >= 0x20 && u[i] as int != 0x7f
  }

  predicate WellFormed(key: Key, v: Value) {
    match key
    case Type => v.Text?
    case Protocol => v.Number? && v.n.Some?
    case Id => v.Number? && v.n.Some?
    case Hash => v.Text? && Torrents.ValidHash(v.text)
    case Url => v.Text? && v.text != "" && JsonSize.ByteLen(v.text) <= 2048
    case DeleteFiles => v.Flag?
    case Ref => v.Text? && ValidRef(v.text)
    case Username => v.Text? && JsonSize.ByteLen(v.text) <= 64
    case Password => v.Text? && v.text != "" && JsonSize.ByteLen(v.text) <= 256
    case UseStored => v.Flag?
    case TlsMode => v.Text? && (v.text == "system" || v.text == "pin")
    case Pin => v.Text? && ValidPin(v.text)
    case AllowHttp => v.Flag?
    case SecretAction => v.Text? && (v.text == "keep" || v.text == "replace" || v.text == "delete")
    case Unknown(_) => false
  }

  // ---- the table ----

  datatype Kind = Hello | Query | OnTorrent | Add | Remove | Test | Configure | Foreign

  function KindOf(s: string): Kind {
    if s == "hello" then Hello
    else if s in {"health", "system.status", "torrent.subscribe", "dashboard.status", "connection.status"} then Query
    else if s == "torrent.pause" || s == "torrent.resume" then OnTorrent
    else if s == "torrent.add" then Add
    else if s == "torrent.remove" then Remove
    else if s == "connection.test" then Test
    else if s == "connection.configure" then Configure
    else Foreign
  }

  function Required(k: Kind): set<Key> {
    match k
    case Hello => {Type, Protocol}
    case Query => {Type, Id}
    case OnTorrent => {Type, Id, Hash, Ref}
    case Add => {Type, Id, Url, Ref}
    case Remove => {Type, Id, Hash, Ref, DeleteFiles}
    case Test => {Type, Id, Url, TlsMode}
    case Configure => {Type, Id, Url, TlsMode, SecretAction}
    case Foreign => {Type}
  }

  function Allowed(k: Kind): set<Key> {
    if k.Test? || k.Configure? then Required(k) + {Username, Password, UseStored, Pin, AllowHttp} else Required(k)
  }

  type Form = map<Key, Value>

  function TextAt(m: Form, k: Key): string {
    if k in m && m[k].Text? then m[k].text else ""
  }

  function NumberAt(m: Form, k: Key): int {
    if k in m && m[k].Number? then m[k].n.GetOr(0) else 0
  }

  predicate FlagAt(m: Form, k: Key) {
    k in m && m[k].Flag? && m[k].b
  }

  /** What else must hold between the fields of a form with the right keys. */
  predicate Agrees(k: Kind, m: Form) {
    && (k.Add? ==> "magnet:" <= TextAt(m, Url))
    && (k.Test? || k.Configure? ==>
          && ValidConnUrl(TextAt(m, Url))
          && !(Password in m && UseStored in m)
          && (Pin in m <==> TextAt(m, TlsMode) == "pin"))
    && (k.Configure? ==> (Password in m <==> TextAt(m, SecretAction) == "replace"))
  }

  predicate AllWellFormed(m: Form) {
    forall k :: k in m ==> WellFormed(k, m[k])
  }

  /** The whole grammar on one page. */
  predicate Legal(m: Form) {
    && AllWellFormed(m)
    && var k := KindOf(TextAt(m, Type));
    Required(k) <= m.Keys <= Allowed(k) && Agrees(k, m)
  }

  function Decode(m: Form): Request {
    Request(TextAt(m, Type), NumberAt(m, Protocol), NumberAt(m, Id), TextAt(m, Hash), TextAt(m, Url), FlagAt(m, DeleteFiles),
            TextAt(m, Ref), TextAt(m, Username), TextAt(m, Password), FlagAt(m, UseStored), TextAt(m, TlsMode),
            TextAt(m, Pin), FlagAt(m, AllowHttp), TextAt(m, SecretAction))
  }

  predicate Distinct(fields: seq<Field>) {
    forall i, j :: 0 <= i < j < |fields| ==> fields[i].key != fields[j].key
  }

  function AsForm(fields: seq<Field>): Form {
    if fields == [] then map[]
    else AsForm(fields[..|fields| - 1])[fields[|fields| - 1].key := fields[|fields| - 1].value]
  }

  /** The meaning of a tokenised frame. */
  function Meaning(fields: seq<Field>): Option<Request> {
    if Distinct(fields) && Legal(AsForm(fields)) then Some(Decode(AsForm(fields))) else None
  }

  // ---- the parser ----

  function FlagsOf(keys: set<Key>): Flags {
    Flags(Type in keys, Protocol in keys, Id in keys, Hash in keys, Url in keys, DeleteFiles in keys, Ref in keys,
          Username in keys, Password in keys, UseStored in keys, TlsMode in keys, Pin in keys, AllowHttp in keys,
          SecretAction in keys)
  }

  /** The type of value a key takes. */
  predicate Shaped(key: Key, v: Value) {
    match key
    case Protocol => v.Number? && v.n.Some?
    case Id => v.Number? && v.n.Some?
    case DeleteFiles => v.Flag?
    case UseStored => v.Flag?
    case AllowHttp => v.Flag?
    case Unknown(_) => false
    case _ => v.Text?
  }

  function Put(req: Request, key: Key, v: Value): Request
    requires Shaped(key, v)
  {
    match key
    case Type => req.(kind := v.text)
    case Protocol => req.(protocol := v.n.value)
    case Id => req.(id := v.n.value)
    case Hash => req.(hash := v.text)
    case Url => req.(url := v.text)
    case DeleteFiles => req.(deleteFiles := v.b)
    case Ref => req.(reference := v.text)
    case Username => req.(username := v.text)
    case Password => req.(password := v.text)
    case UseStored => req.(useStored := v.b)
    case TlsMode => req.(tlsMode := v.text)
    case Pin => req.(pin := v.text)
    case AllowHttp => req.(allowHttp := v.b)
    case SecretAction => req.(secretAction := v.text)
  }

  function Raise(has: Flags, key: Key): Flags {
    Flags(has.kind || key.Type?, has.protocol || key.Protocol?, has.id || key.Id?, has.hash || key.Hash?, has.url || key.Url?,
          has.delete || key.DeleteFiles?, has.reference || key.Ref?, has.username || key.Username?,
          has.password || key.Password?, has.useStored || key.UseStored?, has.tlsMode || key.TlsMode?, has.pin || key.Pin?,
          has.allowHttp || key.AllowHttp?, has.secretAction || key.SecretAction?)
  }

  lemma WellFormedIsShaped(key: Key, v: Value)
    requires WellFormed(key, v)
    ensures Shaped(key, v)
  {
  }

  lemma PutDecodes(m: Form, key: Key, v: Value)
    requires Shaped(key, v)
    ensures Decode(m[key := v]) == Put(Decode(m), key, v)
  {
    var n := m[key := v];
    assert SameElsewhere(m, n, key);
    if v.Text? {
      PutText(m, n, key, v);
    } else {
      PutOther(m, n, key, v);
    }
  }

  ghost predicate SameElsewhere(m: Form, n: Form, key: Key) {
    forall k :: k != key ==> TextAt(n, k) == TextAt(m, k) && NumberAt(n, k) == NumberAt(m, k) && FlagAt(n, k) == FlagAt(m, k)
  }

  lemma PutText(m: Form, n: Form, key: Key, v: Value)
    requires Shaped(key, v) && v.Text? && SameElsewhere(m, n, key) && TextAt(n, key) == v.text
    ensures Decode(n) == Put(Decode(m), key, v)
  {
  }

  lemma PutOther(m: Form, n: Form, key: Key, v: Value)
    requires Shaped(key, v) && !v.Text? && SameElsewhere(m, n, key)
    requires if v.Number? then NumberAt(n, key) == v.n.value else FlagAt(n, key) == v.b
    ensures Decode(n) == Put(Decode(m), key, v)
  {
  }

  lemma RaiseFlags(keys: set<Key>, key: Key)
    ensures FlagsOf(keys + {key}) == Raise(FlagsOf(keys), key)
  {
    Added(keys, key, Type); Added(keys, key, Protocol); Added(keys, key, Id); Added(keys, key, Hash);
    Added(keys, key, Url); Added(keys, key, DeleteFiles); Added(keys, key, Ref); Added(keys, key, Username);
    Added(keys, key, Password); Added(keys, key, UseStored); Added(keys, key, TlsMode); Added(keys, key, Pin);
    Added(keys, key, AllowHttp); Added(keys, key, SecretAction);
  }

  lemma Added(keys: set<Key>, key: Key, k: Key)
    ensures k in keys + {key} <==> k in keys || k == key
  {
  }

  lemma WellFormedMore(m: Form, key: Key, v: Value)
    requires AllWellFormed(m) && WellFormed(key, v)
    ensures AllWellFormed(m[key := v])
  {
  }

  predicate ConnFields(has: Flags) {
    has.username || has.password || has.useStored || has.tlsMode || has.pin || has.allowHttp || has.secretAction
  }

  /** The key tests of the switch on the message type. */
  predicate KeysPass(k: Kind, has: Flags) {
    has.kind &&
    match k
    case Hello => !(!has.protocol || has.id || has.hash || has.url || has.delete || has.reference || ConnFields(has))
    case Query => !(!has.id || has.protocol || has.hash || has.url || has.delete || has.reference || ConnFields(has))
    case OnTorrent => !(!has.id || has.protocol || !has.hash || !has.reference || has.url || has.delete || ConnFields(has))
    case Add => !(!has.id || has.protocol || !has.url || !has.reference || has.hash || has.delete || ConnFields(has))
    case Remove =>
      !(!has.id || has.protocol || !has.hash || !has.reference || !has.delete || has.url || ConnFields(has))
    case Test =>
      !(!has.id || has.protocol || has.hash || has.delete || has.reference) && !(!has.url || !has.tlsMode) && !has.secretAction
    case Configure =>
      !(!has.id || has.protocol || has.hash || has.delete || has.reference) && !(!has.url || !has.tlsMode) && has.secretAction
    case Foreign => !(has.protocol || has.id || has.hash || has.url || has.delete || has.reference || ConnFields(has))
  }

  predicate ConnectionValues(req: Request, has: Flags) {
    && ValidConnUrl(req.url)
    && !(has.password && has.useStored)
    && !(req.tlsMode == "pin" && !has.pin)
    && !(req.tlsMode != "pin" && has.pin)
  }

  /** The remaining tests of that switch. */
  predicate ValuesPass(k: Kind, req: Request, has: Flags) {
    match k
    case Add => "magnet:" <= req.url
    case Test => ConnectionValues(req, has)
    case Configure =>
      && ConnectionValues(req, has)
      && !(req.secretAction == "replace" && !has.password)
      && !(req.secretAction != "replace" && has.password)
    case _ => true
  }

  predicate Known(keys: set<Key>) {
    forall k :: k in keys ==> !k.Unknown?
  }

  lemma TableImpliesFlags(k: Kind, keys: set<Key>)
    requires Required(k) <= keys <= Allowed(k)
    ensures KeysPass(k, FlagsOf(keys))
  {
    assert forall key :: key !in Allowed(k) ==> key !in keys;
  }

  lemma FlagsImplyTable(k: Kind, keys: set<Key>)
    requires Known(keys) && KeysPass(k, FlagsOf(keys))
    ensures Required(k) <= keys <= Allowed(k)
  {
    forall key | key in keys ensures key in Allowed(k) {
    }
  }

  /** The flag tests are the table. */
  lemma FlagsAreTheTable(k: Kind, keys: set<Key>)
    requires Known(keys)
    ensures KeysPass(k, FlagsOf(keys)) <==> Required(k) <= keys <= Allowed(k)
  {
    if KeysPass(k, FlagsOf(keys)) {
      FlagsImplyTable(k, keys);
    }
    if Required(k) <= keys <= Allowed(k) {
      TableImpliesFlags(k, keys);
    }
  }

  lemma TestsAreTheGrammar(m: Form)
    requires AllWellFormed(m)
    ensures var k, has, req := KindOf(TextAt(m, Type)), FlagsOf(m.Keys), Decode(m);
            KeysPass(k, has) && ValuesPass(k, req, has) <==> Legal(m)
  {
    forall k | k in m ensures !k.Unknown? {
      assert WellFormed(k, m[k]);
    }
    FlagsAreTheTable(KindOf(TextAt(m, Type)), m.Keys);
  }

  lemma {:induction false} FormKeys(fields: seq<Field>)
    ensures forall k :: k in AsForm(fields) <==> exists i :: 0 <= i < |fields| && fields[i].key == k
  {
    if fields != [] {
      var front := fields[..|fields| - 1];
      FormKeys(front);
      forall k | k in AsForm(front) ensures exists i :: 0 <= i < |fields| && fields[i].key == k {
        var i :| 0 <= i < |front| && front[i].key == k;
        assert fields[i].key == k;
      }
      assert fields[|fields| - 1].key in AsForm(fields);
      forall i | 0 <= i < |fields| ensures fields[i].key in AsForm(fields) {
        if i < |front| {
          assert front[i].key in AsForm(front);
        }
      }
    }
  }

  /** parseFrame accepts exactly the legal field lists and returns what they mean. */
  method ParseFrame(fields: seq<Field>) returns (r: Option<Request>)
    ensures r == Meaning(fields)
    ensures forall q: Request :: r == Some(q) <==> Understood(fields, q)
  {
    forall q: Request ensures Meaning(fields) == Some(q) <==> Understood(fields, q) {
      UnderstoodExactly(fields, q);
    }
    var req, has := BLANK, NO_FLAGS;
    var seen: set<Key> := {};
    ghost var m: Form := map[];
    for i := 0 to |fields|
      invariant ReadSoFar(fields, i, m, seen, req, has)
    {
      var f := fields[i];
      FormKeys(fields[..i]);
      if f.key in seen {
        assert !Distinct(fields);
        return None;
      }
      seen := seen + {f.key};
      if !WellFormed(f.key, f.value) {
        IllFormed(fields, i);
        return None;
      }
      ReadOneMore(fields, i, m, seen - {f.key}, req, has);
      req, has := Put(req, f.key, f.value), Raise(has, f.key);
      m := m[f.key := f.value];
    }
    assert fields[..|fields|] == fields;
    TestsAreTheGrammar(m);
    if !KeysPass(KindOf(req.kind), has) || !ValuesPass(KindOf(req.kind), req, has) {
      return None;
    }
    r := Some(req);
  }

  /** What the loop holds after i fields. */
  ghost predicate ReadSoFar(fields: seq<Field>, i: nat, m: Form, seen: set<Key>, req: Request, has: Flags)
    requires i <= |fields|
  {
    && Distinct(fields[..i]) && AllWellFormed(m)
    && m == AsForm(fields[..i]) && seen == m.Keys
    && req == Decode(m) && has == FlagsOf(seen)
  }

  lemma ReadOneMore(fields: seq<Field>, i: nat, m: Form, seen: set<Key>, req: Request, has: Flags)
    requires i < |fields| && ReadSoFar(fields, i, m, seen, req, has)
    requires fields[i].key !in seen && WellFormed(fields[i].key, fields[i].value)
    ensures var f := fields[i];
            Shaped(f.key, f.value)
            && ReadSoFar(fields, i + 1, m[f.key := f.value], seen + {f.key}, Put(req, f.key, f.value), Raise(has, f.key))
  {
    var f := fields[i];
    WellFormedIsShaped(f.key, f.value);
    PutDecodes(m, f.key, f.value);
    RaiseFlags(seen, f.key);
    WellFormedMore(m, f.key, f.value);
    assert fields[..i + 1][..i] == fields[..i];
    DistinctMore(fields, i);
  }

  lemma DistinctMore(fields: seq<Field>, i: nat)
    requires i < |fields| && Distinct(fields[..i]) && fields[i].key !in AsForm(fields[..i])
    ensures Distinct(fields[..i + 1])
  {
    FormKeys(fields[..i]);
    forall j | 0 <= j < i ensures fields[j].key != fields[i].key {
      assert fields[..i][j].key == fields[j].key;
    }
  }

  lemma {:induction false} FormHas(fields: seq<Field>, i: nat)
    requires Distinct(fields) && i < |fields|
    ensures fields[i].key in AsForm(fields) && AsForm(fields)[fields[i].key] == fields[i].value
  {
    if i < |fields| - 1 {
      FormHas(fields[..|fields| - 1], i);
    }
  }

  lemma IllFormed(fields: seq<Field>, i: nat)
    requires i < |fields| && !WellFormed(fields[i].key, fields[i].value)
    ensures Meaning(fields) == None
  {
    if Distinct(fields) {
      FormHas(fields, i);
    }
  }

  // ---- the order of the fields does not matter ----

  lemma {:induction false} Twice(fields: seq<Field>, i: nat, j: nat)
    requires i < j < |fields| && fields[i] == fields[j]
    ensures multiset(fields)[fields[i]] >= 2
  {
    assert fields == fields[..j] + [fields[j]] + fields[j + 1..];
    assert fields[..j][i] == fields[i];
    assert multiset(fields[..j])[fields[i]] >= 1;
  }

  lemma {:induction false} FoundTwice(fields: seq<Field>, f: Field) returns (i: nat, j: nat)
    requires multiset(fields)[f] >= 2
    ensures i < j < |fields| && fields[i] == f == fields[j]
  {
    var front := fields[..|fields| - 1];
    assert fields == front + [fields[|fields| - 1]];
    if fields[|fields| - 1] == f {
      assert f in multiset(front);
      i :| 0 <= i < |front| && front[i] == f;
      j := |fields| - 1;
    } else {
      i, j := FoundTwice(front, f);
    }
  }

  lemma AtMostOnce(fields: seq<Field>, f: Field)
    requires Distinct(fields)
    ensures multiset(fields)[f] <= 1
  {
    if multiset(fields)[f] >= 2 {
      var i, j := FoundTwice(fields, f);
    }
  }

  lemma KeysDiffer(fields: seq<Field>, f: Field, g: Field)
    requires Distinct(fields) && f in fields && g in fields && f != g
    ensures f.key != g.key
  {
  }

  lemma DistinctPermuted(a: seq<Field>, b: seq<Field>)
    requires multiset(a) == multiset(b) && Distinct(a)
    ensures Distinct(b)
  {
    forall i, j | 0 <= i < j < |b| ensures b[i].key != b[j].key {
      AtMostOnce(a, b[i]);
      if b[i] == b[j] {
        Twice(b, i, j);
      } else {
        assert b[i] in multiset(a) && b[j] in multiset(a);
        KeysDiffer(a, b[i], b[j]);
      }
    }
  }

  lemma FormPermuted(a: seq<Field>, b: seq<Field>)
    requires multiset(a) == multiset(b) && Distinct(a) && Distinct(b)
    ensures AsForm(a) == AsForm(b)
  {
    FormKeys(a);
    FormKeys(b);
    forall k | k in AsForm(a) ensures k in AsForm(b) && AsForm(a)[k] == AsForm(b)[k] {
      var i :| 0 <= i < |a| && a[i].key == k;
      FormHas(a, i);
      assert a[i] in multiset(b);
      var j :| 0 <= j < |b| && b[j] == a[i];
      FormHas(b, j);
    }
    forall k | k in AsForm(b) ensures k in AsForm(a) {
      var j :| 0 <= j < |b| && b[j].key == k;
      assert b[j] in multiset(a);
      var i :| 0 <= i < |a| && a[i] == b[j];
      assert a[i].key == k;
    }
  }

  /** Permuting the fields changes neither acceptance nor the request. */
  lemma OrderIsIrrelevant(a: seq<Field>, b: seq<Field>)
    requires multiset(a) == multiset(b)
    ensures Meaning(a) == Meaning(b)
  {
    if Distinct(a) {
      DistinctPermuted(a, b);
      FormPermuted(a, b);
    } else if Distinct(b) {
      DistinctPermuted(b, a);
    }
  }

  // ---- the requests there are ----

  predicate HashText(s: string) {
    (|s| == 40 || |s| == 64) && forall c :: c in s ==> c in "0123456789abcdefABCDEF"
  }

  predicate RefText(s: string) {
    1 <= |s| <= 128 && forall c :: c in s ==> 'A' <= c <= 'Z' || 'a' <= c <= 'z' || '0' <= c <= '9' || c in "._:-"
  }

  predicate PinText(s: string) {
    |s| == 64 && forall c :: c in s ==> c in "0123456789abcdef"
  }

  predicate Printable(s: string) {
    forall c :: c in s ==> c >= ' ' && c as int != 0x7f
  }

  predicate SaysText(m: Form, k: Key, s: string) {
    if k in m then m[k] == Text(s) else s == ""
  }

  predicate SaysNumber(m: Form, k: Key, n: int) {
    if k in m then m[k] == Number(Some(n)) else n == 0
  }

  predicate SaysFlag(m: Form, k: Key, b: bool) {
    if k in m then m[k] == Flag(b) else !b
  }

  /** Each component is what its field says, and blank without one; no field is unknown. */
  predicate Says(m: Form, r: Request) {
    && SaysText(m, Type, r.kind) && SaysNumber(m, Protocol, r.protocol) && SaysNumber(m, Id, r.id)
    && SaysText(m, Hash, r.hash) && SaysText(m, Url, r.url) && SaysFlag(m, DeleteFiles, r.deleteFiles) && SaysText(m, Ref, r.reference)
    && SaysText(m, Username, r.username) && SaysText(m, Password, r.password) && SaysFlag(m, UseStored, r.useStored)
    && SaysText(m, TlsMode, r.tlsMode) && SaysText(m, Pin, r.pin) && SaysFlag(m, AllowHttp, r.allowHttp)
    && SaysText(m, SecretAction, r.secretAction)
    && forall k :: k in m ==> !k.Unknown?
  }

  /** The fields a message of each type comes with. */
  predicate Carries(kind: string, keys: set<Key>) {
    var conn := {Type, Id, Url, TlsMode};
    var options := {Username, Password, UseStored, Pin, AllowHttp};
    if kind == "hello" then keys == {Type, Protocol}
    else if kind in {"health", "system.status", "torrent.subscribe", "dashboard.status", "connection.status"} then keys == {Type, Id}
    else if kind in {"torrent.pause", "torrent.resume"} then keys == {Type, Id, Hash, Ref}
    else if kind == "torrent.add" then keys == {Type, Id, Url, Ref}
    else if kind == "torrent.remove" then keys == {Type, Id, Hash, Ref, DeleteFiles}
    else if kind == "connection.test" then conn <= keys <= conn + options
    else if kind == "connection.configure" then conn + {SecretAction} <= keys <= conn + {SecretAction} + options
    else keys == {Type}
  }

  /** A field that is there has a legal value. */
  predicate ValueOk(k: Key, r: Request) {
    match k
    case Hash => HashText(r.hash)
    case Url => 1 <= |r.url| && JsonSize.ByteLen(r.url) <= 2048
    case Ref => RefText(r.reference)
    case Username => JsonSize.ByteLen(r.username) <= 64
    case Password => r.password != "" && JsonSize.ByteLen(r.password) <= 256
    case TlsMode => r.tlsMode in {"system", "pin"}
    case Pin => PinText(r.pin)
    case SecretAction => r.secretAction in {"keep", "replace", "delete"}
    case _ => true
  }

  /** And the values fit together. */
  predicate Together(r: Request, keys: set<Key>) {
    && (r.kind == "torrent.add" ==> "magnet:" <= r.url)
    && (r.kind in {"connection.test", "connection.configure"} ==>
          && 1 <= |r.url| && JsonSize.ByteLen(r.url) <= 2048 && Printable(r.url)
          && (Password !in keys || UseStored !in keys)
          && (Pin in keys <==> r.tlsMode == "pin"))
    && (r.kind == "connection.configure" ==> (Password in keys <==> r.secretAction == "replace"))
  }

  predicate Understood(fields: seq<Field>, r: Request) {
    var m := AsForm(fields);
    Distinct(fields) && Says(m, r) && Carries(r.kind, m.Keys) && (forall k :: k in m ==> ValueOk(k, r)) && Together(r, m.Keys)
  }

  lemma TextsAre(s: string)
    ensures Torrents.ValidHash(s) <==> HashText(s)
    ensures ValidRef(s) <==> RefText(s)
    ensures ValidPin(s) <==> PinText(s)
    ensures (forall i :: 0 <= i < |s| ==> s[i] as int >= 0x20 && s[i] as int != 0x7f) <==> Printable(s)
  {
    HexIs(s);
    RefIs(s);
    PinIs(s);
    if Printable(s) {
      forall i | 0 <= i < |s| ensures s[i] as int >= 0x20 && s[i] as int != 0x7f {
        assert s[i] in s;
      }
    }
  }

  lemma HexIs(s: string)
    ensures Torrents.ValidHash(s) <==> HashText(s)
  {
    if HashText(s) {
      forall i | 0 <= i < |s| ensures Torrents.HexDigit(s[i]) {
        assert s[i] in s;
      }
    }
  }

  lemma RefIs(s: string)
    ensures ValidRef(s) <==> RefText(s)
  {
    if RefText(s) {
      forall i | 0 <= i < |s| ensures RefChar(s[i]) {
        assert s[i] in s;
      }
    }
  }

  lemma PinIs(s: string)
    ensures ValidPin(s) <==> PinText(s)
  {
    if PinText(s) {
      forall i | 0 <= i < |s| ensures '0' <= s[i] <= '9' || 'a' <= s[i] <= 'f' {
        assert s[i] in s;
      }
    }
  }

  lemma SaysDecodes(m: Form, r: Request)
    requires Says(m, r)
    ensures Decode(m) == r
  {
  }

  lemma WellFormedSays(m: Form)
    requires AllWellFormed(m)
    ensures Says(m, Decode(m))
  {
    SaysOne(m, Type); SaysOne(m, Protocol); SaysOne(m, Id); SaysOne(m, Hash); SaysOne(m, Url); SaysOne(m, DeleteFiles); SaysOne(m, Ref);
    SaysOne(m, Username); SaysOne(m, Password); SaysOne(m, UseStored); SaysOne(m, TlsMode); SaysOne(m, Pin); SaysOne(m, AllowHttp);
    SaysOne(m, SecretAction);
    forall k | k in m ensures !k.Unknown? {
      assert WellFormed(k, m[k]);
    }
  }

  lemma SaysOne(m: Form, k: Key)
    requires AllWellFormed(m)
    ensures k in m ==> Shaped(k, m[k])
    ensures match k
            case Protocol => SaysNumber(m, k, NumberAt(m, k))
            case Id => SaysNumber(m, k, NumberAt(m, k))
            case DeleteFiles => SaysFlag(m, k, FlagAt(m, k))
            case UseStored => SaysFlag(m, k, FlagAt(m, k))
            case AllowHttp => SaysFlag(m, k, FlagAt(m, k))
            case _ => SaysText(m, k, TextAt(m, k))
  {
    if k in m {
      WellFormedIsShaped(k, m[k]);
    }
  }

  lemma ValueIs(m: Form, r: Request, k: Key)
    requires Says(m, r) && k in m
    ensures WellFormed(k, m[k]) <==> ValueOk(k, r)
  {
    TextsAre(if m[k].Text? then m[k].text else "");
  }

  lemma CarriesIs(kind: string, keys: set<Key>)
    ensures Required(KindOf(kind)) <= keys <= Allowed(KindOf(kind)) <==> Carries(kind, keys)
  {
  }

  lemma TogetherIs(m: Form, r: Request)
    requires Says(m, r)
    ensures Agrees(KindOf(r.kind), m) <==> Together(r, m.Keys)
  {
    TextsAre(r.url);
    assert TextAt(m, Url) == r.url && TextAt(m, TlsMode) == r.tlsMode && TextAt(m, SecretAction) == r.secretAction;
  }

  lemma LegalIs(m: Form, r: Request)
    requires Says(m, r)
    ensures Legal(m) <==> Carries(r.kind, m.Keys) && (forall k :: k in m ==> ValueOk(k, r)) && Together(r, m.Keys)
  {
    assert TextAt(m, Type) == r.kind;
    CarriesIs(r.kind, m.Keys);
    TogetherIs(m, r);
    forall k | k in m ensures WellFormed(k, m[k]) <==> ValueOk(k, r) {
      ValueIs(m, r, k);
    }
  }

  /** A frame is accepted as a request exactly when it says that request, field by field, with
      the fields and values its type calls for. */
  lemma UnderstoodExactly(fields: seq<Field>, r: Request)
    ensures Meaning(fields) == Some(r) <==> Understood(fields, r)
  {
    var m := AsForm(fields);
    if Meaning(fields) == Some(r) {
      WellFormedSays(m);
      LegalIs(m, r);
    }
    if Understood(fields, r) {
      LegalIs(m, r);
      SaysDecodes(m, r);
    }
  }
}
