/** The result interpreter (KeychainQueryBuilder/Classes/KeychainQueryBuilder.swift,
    lines 100-157): a single-shot classifier from the store's status code and
    optional item, read against the original request, to a closed set of outcomes. */
module ResultBuilder {

  import opened Security
  import QB = QueryBuilder
  import W = Wrappers

  /** The store's opaque item: an attribute dictionary, or anything else. */
  datatype Item = Dict(attributes: map<string, QB.Value>) | Other

  /** One retrieved payload (`KeychainQueryResult.Result`). */
  datatype Result = Result(data: seq<bv8>)

  /** `KeychainQueryResultBuilder.Error`. */
  datatype ResultError =
    | UnhandledError(status: OSStatus)
    | UnexpectedFormat
    | UnexpectedlyNoData
    | MultipleResultsNotSupportedYet

  /** `KeychainQueryResult`; `Many` is declared for later use and never produced. */
  datatype KeychainQueryResult =
    | None
    | One(result: Result)
    | Many(results: seq<Result>)
    | Error(error: ResultError)

  /** The item reads as an attribute dictionary. */
  predicate IsDict(item: W.Option<Item>) {
    item.Some? && item.value.Dict?
  }

  /** The item is a dictionary holding binary data under the payload key. */
  predicate HasPayload(p: Platform, item: W.Option<Item>) {
    && IsDict(item)
    && p.name(KSecValueData) in item.value.attributes
    && item.value.attributes[p.name(KSecValueData)].Bytes?
  }

  /** The status code reports success (and is not taken for "not found"). */
  predicate Succeeded(p: Platform, status: OSStatus) {
    status != p.errSecItemNotFound && status == p.errSecSuccess
  }

  /** `attributeIsSet`: the key is present in the request, whatever value it holds. */
  function AttributeIsSet(attribute: string, query: QB.Query): (r: bool)
    ensures r <==> attribute in query.Keys
  {
    attribute in query
  }

  /** `extractOneElement`: read a single payload out of the item. */
  function ExtractOneElement(p: Platform, item: W.Option<Item>): (r: KeychainQueryResult)
    ensures r == Error(UnexpectedFormat) <==> !IsDict(item)
    ensures r == Error(UnexpectedlyNoData) <==> IsDict(item) && !HasPayload(p, item)
    ensures r.One? <==> HasPayload(p, item)
    ensures r.One? ==> r.result.data == item.value.attributes[p.name(KSecValueData)].bytes
    ensures r.One? || r == Error(UnexpectedFormat) || r == Error(UnexpectedlyNoData)
  {
    match item
    case None => Error(UnexpectedFormat)
    case Some(Other) => Error(UnexpectedFormat)
    case Some(Dict(attributes)) =>
      if p.name(KSecValueData) in attributes && attributes[p.name(KSecValueData)].Bytes? then
        One(Result(attributes[p.name(KSecValueData)].bytes))
      else
        Error(UnexpectedlyNoData)
  }

  datatype KeychainQueryResultBuilder = KeychainQueryResultBuilder(query: QB.Query)
  {
    /** `result(for:status:)`, as written: the multi-result guard asks whether
        the "all" tag itself is a key of the request. */
    function ResultFor(p: Platform, item: W.Option<Item>, status: OSStatus): (r: KeychainQueryResult)
      ensures r.None? <==> status == p.errSecItemNotFound
      ensures r == Error(UnhandledError(status)) <==>
                status != p.errSecItemNotFound && status != p.errSecSuccess
      ensures r.Error? && r.error.UnhandledError? ==> r.error.status == status
      ensures r == Error(MultipleResultsNotSupportedYet) <==>
                Succeeded(p, status) && p.name(KSecMatchLimitAll) in query
      ensures Succeeded(p, status) && p.name(KSecMatchLimitAll) !in query ==>
                r == ExtractOneElement(p, item)
      ensures !r.Many?
    {
      if status == p.errSecItemNotFound then
        None
      else if status != p.errSecSuccess then
        Error(UnhandledError(status))
      else if AttributeIsSet(p.name(QB.LimitConstant(QB.All)), query) then
        Error(MultipleResultsNotSupportedYet)
      else
        ExtractOneElement(p, item)
    }

    /** The multi-result guard as evidently intended: the request's match
        limit criterion holds the "all" tag. */
    function IntendedResult(p: Platform, item: W.Option<Item>, status: OSStatus): (r: KeychainQueryResult)
      ensures r.None? <==> status == p.errSecItemNotFound
      ensures r == Error(UnhandledError(status)) <==>
                status != p.errSecItemNotFound && status != p.errSecSuccess
      ensures r.Error? && r.error.UnhandledError? ==> r.error.status == status
      ensures r == Error(MultipleResultsNotSupportedYet) <==>
                Succeeded(p, status) && RequestsAll(p, query)
      ensures Succeeded(p, status) && !RequestsAll(p, query) ==>
                r == ExtractOneElement(p, item)
      ensures !r.Many?
    {
      if status == p.errSecItemNotFound then
        None
      else if status != p.errSecSuccess then
        Error(UnhandledError(status))
      else if RequestsAll(p, query) then
        Error(MultipleResultsNotSupportedYet)
      else
        ExtractOneElement(p, item)
    }
  }

  /** The request's match-limit criterion is the "all" tag. */
  predicate RequestsAll(p: Platform, query: QB.Query) {
    && p.name(KSecMatchLimit) in query
    && query[p.name(KSecMatchLimit)] == QB.LimitTag(p.name(KSecMatchLimitAll))
  }

  /** The proviso under which the as-written guard is dead for built requests:
      the "all" tag is not one of the keys the builder writes. */
  predicate AllTagIsNotAKey(p: Platform) {
    p.name(KSecMatchLimitAll) !in QB.BuilderKeys(p)
  }

  lemma NamesDistinctGivesAllTagIsNotAKey(p: Platform)
    requires p.NamesDistinct()
    ensures AllTagIsNotAKey(p)
  {
  }

  /** A request built through the public API, from either initialiser,
      never has the "all" tag as a key. */
  lemma BuiltQueryLacksAllTagKey(p: Platform, encode: string -> W.Option<seq<bv8>>, t: QB.DataType, calls: seq<QB.Call>)
    requires AllTagIsNotAKey(p)
    ensures p.name(KSecMatchLimitAll) !in QB.KeychainQueryBuilder.ForType(p, t).Run(p, encode, calls).Build()
    ensures p.name(KSecMatchLimitAll) !in QB.KeychainQueryBuilder.Empty().Run(p, encode, calls).Build()
  {
    QB.RunKeys(p, encode, QB.KeychainQueryBuilder.ForType(p, t), calls);
    QB.RunKeys(p, encode, QB.KeychainQueryBuilder.Empty(), calls);
  }

  /** So the as-written classifier never rejects a built request as a
      multi-result request. */
  lemma BuiltQueryNeverRejectedAsMultiple(
    p: Platform, encode: string -> W.Option<seq<bv8>>, t: W.Option<QB.DataType>, calls: seq<QB.Call>,
    item: W.Option<Item>, status: OSStatus)
    requires AllTagIsNotAKey(p)
    ensures var start := if t.Some? then QB.KeychainQueryBuilder.ForType(p, t.value) else QB.KeychainQueryBuilder.Empty();
            var q := start.Run(p, encode, calls).Build();
            KeychainQueryResultBuilder(q).ResultFor(p, item, status) != Error(MultipleResultsNotSupportedYet)
  {
    var start := if t.Some? then QB.KeychainQueryBuilder.ForType(p, t.value) else QB.KeychainQueryBuilder.Empty();
    QB.RunKeys(p, encode, start, calls);
    if t.Some? {
      BuiltQueryLacksAllTagKey(p, encode, t.value, calls);
    }
  }

  /** The discrepancy: a request built with `matchLimit(.all)`, a successful
      status and an item carrying a payload give a single match, not the
      multi-result rejection. */
  lemma MatchLimitAllNotRejected(
    p: Platform, encode: string -> W.Option<seq<bv8>>, t: QB.DataType, calls: seq<QB.Call>, payload: seq<bv8>)
    requires AllTagIsNotAKey(p) && p.StatusesDistinct()
    ensures var q := QB.KeychainQueryBuilder.ForType(p, t).Run(p, encode, calls + [QB.SetMatchLimit(QB.All)]).Build();
            var item := W.Some(Dict(map[p.name(KSecValueData) := QB.Bytes(payload)]));
            && RequestsAll(p, q)
            && KeychainQueryResultBuilder(q).ResultFor(p, item, p.errSecSuccess) == One(Result(payload))
  {
    var b := QB.KeychainQueryBuilder.ForType(p, t);
    QB.RunSnoc(p, encode, b, calls, QB.SetMatchLimit(QB.All));
    BuiltQueryLacksAllTagKey(p, encode, t, calls + [QB.SetMatchLimit(QB.All)]);
  }

  /** The corrected classifier rejects every request whose last match-limit
      call asked for all matches, whatever the item. */
  lemma IntendedRejectsMatchLimitAll(
    p: Platform, encode: string -> W.Option<seq<bv8>>, b: QB.KeychainQueryBuilder, calls: seq<QB.Call>,
    item: W.Option<Item>, status: OSStatus)
    requires Succeeded(p, status)
    ensures var q := b.Run(p, encode, calls + [QB.SetMatchLimit(QB.All)]).Build();
            KeychainQueryResultBuilder(q).IntendedResult(p, item, status) == Error(MultipleResultsNotSupportedYet)
  {
    QB.RunSnoc(p, encode, b, calls, QB.SetMatchLimit(QB.All));
  }

  /** On built requests the correction changes only the "all" case. */
  lemma IntendedAgreesUnlessAll(
    p: Platform, encode: string -> W.Option<seq<bv8>>, t: W.Option<QB.DataType>, calls: seq<QB.Call>,
    item: W.Option<Item>, status: OSStatus)
    requires AllTagIsNotAKey(p)
    ensures var start := if t.Some? then QB.KeychainQueryBuilder.ForType(p, t.value) else QB.KeychainQueryBuilder.Empty();
            var q := start.Run(p, encode, calls).Build();
            !RequestsAll(p, q) ==>
              KeychainQueryResultBuilder(q).IntendedResult(p, item, status)
              == KeychainQueryResultBuilder(q).ResultFor(p, item, status)
  {
    BuiltQueryLacksAllTagKey(p, encode, if t.Some? then t.value else QB.Key, calls);
  }

}
