/** The immutable, chainable query builder
    (KeychainQueryBuilder/Classes/KeychainQueryBuilder.swift, lines 3-98).
    Every chain call returns a new builder whose criteria map differs from
    the old one in exactly one key; `Build` hands the map out unchanged. */
module QueryBuilder {

  import opened Security
  import opened Wrappers

  /** How many matches the store may return. */
  datatype KeychainMatchLimit = One | All

  /** The framework tag for a match limit (`kSecMatchlimit`). */
  function LimitConstant(limit: KeychainMatchLimit): (c: SecConst)
    ensures c == KSecMatchLimitOne || c == KSecMatchLimitAll
  {
    match limit
    case One => KSecMatchLimitOne
    case All => KSecMatchLimitAll
  }

  /** The category of secret a query targets. */
  datatype DataType = InternetPassword | GenericPassword | Certificate | Key | Identity

  /** The framework class tag for a category (`kSecClass`). */
  function ClassConstant(t: DataType): (c: SecConst)
    ensures c.KSecClassInternetPassword? || c.KSecClassGenericPassword? || c.KSecClassCertificate?
         || c.KSecClassKey? || c.KSecClassIdentity?
  {
    match t
    case InternetPassword => KSecClassInternetPassword
    case GenericPassword => KSecClassGenericPassword
    case Certificate => KSecClassCertificate
    case Key => KSecClassKey
    case Identity => KSecClassIdentity
  }

  lemma LimitConstantInjective(p: Platform, l1: KeychainMatchLimit, l2: KeychainMatchLimit)
    requires p.NamesDistinct()
    ensures p.name(LimitConstant(l1)) == p.name(LimitConstant(l2)) <==> l1 == l2
  {
  }

  lemma ClassConstantInjective(p: Platform, t1: DataType, t2: DataType)
    requires p.NamesDistinct()
    ensures p.name(ClassConstant(t1)) == p.name(ClassConstant(t2)) <==> t1 == t2
  {
  }

  /** The values a criterion can hold: a class tag, a string, a binary blob,
      a boolean or a match-limit tag. Tags are the framework strings. */
  datatype Value =
    | ClassTag(cls: string)
    | Str(str: string)
    | Bytes(bytes: seq<bv8>)
    | Flag(flag: bool)
    | LimitTag(limit: string)

  /** A request: criterion key to value. */
  type Query = map<string, Value>

  /** `after` binds `key` to `value` and agrees with `before` everywhere else. */
  ghost predicate WritesOnly(before: Query, after: Query, key: string, value: Value) {
    && key in after && after[key] == value
    && (forall k :: k != key ==> (k in after <==> k in before))
    && (forall k :: k != key && k in before ==> after[k] == before[k])
  }

  /** `Dictionary.updated`: a copy of `m` with `key` bound to `value`. */
  function UpdatedMap(m: Query, key: string, value: Value): (r: Query)
    ensures WritesOnly(m, r, key, value)
    ensures r.Keys == m.Keys + {key}
  {
    m[key := value]
  }

  lemma UpdatedMapTwice(m: Query, key: string, v: Value, w: Value)
    ensures UpdatedMap(UpdatedMap(m, key, v), key, w) == UpdatedMap(m, key, w)
  {
  }

  datatype KeychainQueryBuilder = KeychainQueryBuilder(query: Query)
  {
    /** `init(type:)`: the class criterion alone, set to the category's tag. */
    static function ForType(p: Platform, t: DataType): (b: KeychainQueryBuilder)
      ensures b.Build().Keys == {p.name(KSecClass)}
      ensures b.Build()[p.name(KSecClass)] == ClassTag(p.name(ClassConstant(t)))
    {
      KeychainQueryBuilder(map[p.name(KSecClass) := ClassTag(p.name(ClassConstant(t)))])
    }

    /** `init()`: no criteria at all. */
    static function Empty(): (b: KeychainQueryBuilder)
      ensures b.Build().Keys == {}
    {
      KeychainQueryBuilder(map[])
    }

    /** The private `updated(key:value:)`. */
    function Updated(key: string, value: Value): (b: KeychainQueryBuilder)
      ensures WritesOnly(Build(), b.Build(), key, value)
    {
      KeychainQueryBuilder(UpdatedMap(query, key, value))
    }

    function Account(p: Platform, account: string): (b: KeychainQueryBuilder)
      ensures WritesOnly(Build(), b.Build(), p.name(KSecAttrAccount), Str(account))
    {
      Updated(p.name(KSecAttrAccount), Str(account))
    }

    function Data(p: Platform, data: seq<bv8>): (b: KeychainQueryBuilder)
      ensures WritesOnly(Build(), b.Build(), p.name(KSecValueData), Bytes(data))
    {
      Updated(p.name(KSecValueData), Bytes(data))
    }

    /** `data(fromString:)`: `encode` stands for the platform's UTF-8
        encoding, which may fail; on failure the builder is returned as is. */
    function DataFromString(p: Platform, encode: string -> Option<seq<bv8>>, text: string): (b: KeychainQueryBuilder)
      ensures encode(text).None? ==> b == this
      ensures encode(text).Some? ==> b == Data(p, encode(text).value)
      ensures encode(text).Some? ==> WritesOnly(Build(), b.Build(), p.name(KSecValueData), Bytes(encode(text).value))
    {
      match encode(text)
      case None => this
      case Some(data) => Data(p, data)
    }

    function MatchLimit(p: Platform, limit: KeychainMatchLimit): (b: KeychainQueryBuilder)
      ensures WritesOnly(Build(), b.Build(), p.name(KSecMatchLimit), LimitTag(p.name(LimitConstant(limit))))
    {
      Updated(p.name(KSecMatchLimit), LimitTag(p.name(LimitConstant(limit))))
    }

    function ReturnAttributes(p: Platform, isReturningAttributes: bool := true): (b: KeychainQueryBuilder)
      ensures WritesOnly(Build(), b.Build(), p.name(KSecReturnAttributes), Flag(isReturningAttributes))
    {
      Updated(p.name(KSecReturnAttributes), Flag(isReturningAttributes))
    }

    function ReturnData(p: Platform, isReturningData: bool := true): (b: KeychainQueryBuilder)
      ensures WritesOnly(Build(), b.Build(), p.name(KSecReturnData), Flag(isReturningData))
    {
      Updated(p.name(KSecReturnData), Flag(isReturningData))
    }

    /** The accumulated criteria, handed out unchanged. */
    function Build(): (r: Query)
      ensures r == query
    {
      query
    }

    /** One call of the public chaining API. */
    function Apply(p: Platform, encode: string -> Option<seq<bv8>>, c: Call): (b: KeychainQueryBuilder)
      ensures CallValue(p, encode, c).None? ==> b == this
      ensures CallValue(p, encode, c).Some? ==>
                WritesOnly(Build(), b.Build(), CallKey(p, c), CallValue(p, encode, c).value)
    {
      match c
      case SetAccount(account) => Account(p, account)
      case SetData(data) => Data(p, data)
      case SetDataFromString(text) => DataFromString(p, encode, text)
      case SetMatchLimit(limit) => MatchLimit(p, limit)
      case SetReturnAttributes(flag) => ReturnAttributes(p, flag)
      case SetReturnData(flag) => ReturnData(p, flag)
    }

    /** A chain of public calls, applied left to right. */
    function Run(p: Platform, encode: string -> Option<seq<bv8>>, calls: seq<Call>): (b: KeychainQueryBuilder)
      decreases |calls|
    {
      if calls == [] then this else Apply(p, encode, calls[0]).Run(p, encode, calls[1..])
    }
  }

  /** The builder's public setters, as data, so that chains can be reasoned about. */
  datatype Call =
    | SetAccount(account: string)
    | SetData(data: seq<bv8>)
    | SetDataFromString(text: string)
    | SetMatchLimit(limit: KeychainMatchLimit)
    | SetReturnAttributes(isReturningAttributes: bool)
    | SetReturnData(isReturningData: bool)

  /** The criterion key each setter writes. */
  function CallKey(p: Platform, c: Call): string {
    p.name(
      match c
      case SetAccount(_) => KSecAttrAccount
      case SetData(_) => KSecValueData
      case SetDataFromString(_) => KSecValueData
      case SetMatchLimit(_) => KSecMatchLimit
      case SetReturnAttributes(_) => KSecReturnAttributes
      case SetReturnData(_) => KSecReturnData)
  }

  /** The value each setter writes, or None when it writes nothing (a text
      whose encoding fails). */
  function CallValue(p: Platform, encode: string -> Option<seq<bv8>>, c: Call): Option<Value> {
    match c
    case SetAccount(account) => Some(Str(account))
    case SetData(data) => Some(Bytes(data))
    case SetDataFromString(text) => if encode(text).Some? then Some(Bytes(encode(text).value)) else None
    case SetMatchLimit(limit) => Some(LimitTag(p.name(LimitConstant(limit))))
    case SetReturnAttributes(flag) => Some(Flag(flag))
    case SetReturnData(flag) => Some(Flag(flag))
  }

  /** The keys the setters write (`CallKey` of some call). */
  function SetterKeys(p: Platform): set<string> {
    {p.name(KSecAttrAccount), p.name(KSecValueData), p.name(KSecMatchLimit),
     p.name(KSecReturnAttributes), p.name(KSecReturnData)}
  }

  /** Every key a builder's public API can write: the setters' keys and the
      class key written by `init(type:)`. */
  function BuilderKeys(p: Platform): set<string> {
    SetterKeys(p) + {p.name(KSecClass)}
  }

  /** Two setters on the same key: only the second value remains. */
  lemma LastWriteWins(p: Platform, encode: string -> Option<seq<bv8>>, b: KeychainQueryBuilder, c1: Call, c2: Call)
    requires CallKey(p, c1) == CallKey(p, c2)
    requires CallValue(p, encode, c2).Some?
    ensures b.Apply(p, encode, c1).Apply(p, encode, c2) == b.Apply(p, encode, c2)
  {
  }

  /** Setters on different keys commute: the order of criteria is irrelevant. */
  lemma DistinctKeysCommute(p: Platform, encode: string -> Option<seq<bv8>>, b: KeychainQueryBuilder, c1: Call, c2: Call)
    requires CallKey(p, c1) != CallKey(p, c2)
    ensures b.Apply(p, encode, c1).Apply(p, encode, c2) == b.Apply(p, encode, c2).Apply(p, encode, c1)
  {
  }

  /** Running `calls` then `c` is running `calls` and applying `c`. */
  lemma {:induction false} RunSnoc(p: Platform, encode: string -> Option<seq<bv8>>, b: KeychainQueryBuilder, calls: seq<Call>, c: Call)
    ensures b.Run(p, encode, calls + [c]) == b.Run(p, encode, calls).Apply(p, encode, c)
    decreases |calls|
  {
    if calls == [] {
      assert calls + [c] == [c];
    } else {
      assert (calls + [c])[0] == calls[0];
      assert (calls + [c])[1..] == calls[1..] + [c];
      RunSnoc(p, encode, b.Apply(p, encode, calls[0]), calls[1..], c);
    }
  }

  /** A chain of public calls keeps every key it started with and adds only
      keys from `SetterKeys`. */
  lemma {:induction false} RunKeys(p: Platform, encode: string -> Option<seq<bv8>>, b: KeychainQueryBuilder, calls: seq<Call>)
    ensures b.Build().Keys <= b.Run(p, encode, calls).Build().Keys
    ensures b.Run(p, encode, calls).Build().Keys <= b.Build().Keys + SetterKeys(p)
    decreases |calls|
  {
    if calls != [] {
      RunKeys(p, encode, b.Apply(p, encode, calls[0]), calls[1..]);
    }
  }

}
