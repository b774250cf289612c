/** The asset builder: creates one asset against its model, records it in
    the manifest, and discovers the asset's property ids through the
    paginated property listing. Also the tagging of attribute seed values by
    their configured type. */
module AssetBuilder {
  import opened Common
  import opened Seqs
  import opened Manifest

  // ----- property discovery -----

  /** The page size every listing call asks for. */
  const MaxResults: nat := 250

  /** One reply of the property listing: the ids of the property summaries
      on this page and, when more remain, a continuation token. */
  datatype Page = Page(summaries: seq<Id>, nextToken: Option<string>)

  /** One listing call as issued. */
  datatype ListRequest = ListRequest(assetId: Id, nextToken: Option<string>, maxResults: nat)

  /** The record kept for one discovered property, copied from the reply of
      the per-property describe call. */
  datatype PropertyEntry = PropertyEntry(assetName: string, assetId: Id, propertyId: Id,
                                         assetPropertyName: string)

  /** `return_elements`: one describe call per summary on the page, in page
      order; `describe` answers the describe call for this asset. */
  method ReturnElements(page: Page, describe: Id -> PropertyEntry) returns (arr: seq<PropertyEntry>)
    ensures arr == MapSeq(describe, page.summaries)
  {
    arr := [];
    var summaries := page.summaries;
    for i := 0 to |summaries|
      invariant arr == MapSeq(describe, summaries[..i])
    {
      var d := describe(summaries[i]);
      MapSeqSnoc(describe, summaries[..i], summaries[i]);
      assert summaries[..i + 1] == summaries[..i] + [summaries[i]];
      arr := arr + [PropertyEntry(d.assetName, d.assetId, d.propertyId, d.assetPropertyName)];
    }
    assert summaries[..|summaries|] == summaries;
  }

  /** The position of the first page without a continuation token: the
      listing stops after fetching it. The service is assumed to end its
      chain of pages, so the last scripted page has no token. */
  function FinalPage(pages: seq<Page>): (k: nat)
    requires |pages| > 0 && pages[|pages| - 1].nextToken.None?
    ensures k < |pages| && pages[k].nextToken.None?
    ensures forall j :: 0 <= j < k ==> pages[j].nextToken.Some?
  {
    if pages[0].nextToken.None? then 0 else 1 + FinalPage(pages[1..])
  }

  /** The summaries of the given pages, concatenated in page order. */
  function AllSummaries(pages: seq<Page>): seq<Id> {
    if pages == [] then [] else AllSummaries(pages[..|pages| - 1]) + pages[|pages| - 1].summaries
  }

  /** What the discovery loop accumulates over the given pages. */
  function Discovered(pages: seq<Page>, describe: Id -> PropertyEntry): seq<PropertyEntry> {
    if pages == [] then []
    else Discovered(pages[..|pages| - 1], describe) + MapSeq(describe, pages[|pages| - 1].summaries)
  }

  /** The accumulated entries are exactly the described summaries of all
      pages, in page order: none is dropped and none is added. */
  lemma {:induction false} DiscoveredIsDescribedSummaries(pages: seq<Page>, describe: Id -> PropertyEntry)
    ensures Discovered(pages, describe) == MapSeq(describe, AllSummaries(pages))
  {
    if pages != [] {
      var n := |pages| - 1;
      DiscoveredIsDescribedSummaries(pages[..n], describe);
      var a, b := AllSummaries(pages[..n]), pages[n].summaries;
      var l, r := MapSeq(describe, a) + MapSeq(describe, b), MapSeq(describe, a + b);
      assert |l| == |r|;
      forall i | 0 <= i < |l| ensures l[i] == r[i] {
        if i >= |a| { assert (a + b)[i] == b[i - |a|]; }
      }
    }
  }

  /** Every summary on every page is discovered, and nothing else is: with
      distinct property ids and describe replies, no entry is duplicated. */
  lemma DiscoveryComplete(pages: seq<Page>, describe: Id -> PropertyEntry)
    ensures |Discovered(pages, describe)| == |AllSummaries(pages)|
    ensures forall e :: e in Discovered(pages, describe) <==>
                          exists p :: p in AllSummaries(pages) && e == describe(p)
    ensures NoDuplicates(AllSummaries(pages)) &&
            (forall p, q :: p != q ==> describe(p) != describe(q)) ==>
              NoDuplicates(Discovered(pages, describe))
  {
    DiscoveredIsDescribedSummaries(pages, describe);
    var s := AllSummaries(pages);
    forall e | e in Discovered(pages, describe)
      ensures exists p :: p in s && e == describe(p)
    {
      var i :| 0 <= i < |s| && Discovered(pages, describe)[i] == e;
      assert s[i] in s;
    }
  }

  /** The listing requests that fetch the first `n` pages: the first
      without a token, each later one with the token of the page before. */
  function RequestsUpTo(assetId: Id, pages: seq<Page>, n: nat): seq<ListRequest>
    requires n <= |pages|
  {
    if n == 0 then []
    else if n == 1 then [ListRequest(assetId, None, MaxResults)]
    else RequestsUpTo(assetId, pages, n - 1) + [ListRequest(assetId, pages[n - 2].nextToken, MaxResults)]
  }

  /** One request per fetched page, all asking for a full page: the first
      carries no token and each later one the token of the reply before it,
      which, up to the final page, is present. */
  lemma {:induction false} ListingRequests(assetId: Id, pages: seq<Page>)
    requires |pages| > 0 && pages[|pages| - 1].nextToken.None?
    ensures var r := RequestsUpTo(assetId, pages, FinalPage(pages) + 1);
            && |r| == FinalPage(pages) + 1
            && r[0] == ListRequest(assetId, None, MaxResults)
            && forall j :: 0 < j < |r| ==>
                 pages[j - 1].nextToken.Some? &&
                 r[j] == ListRequest(assetId, pages[j - 1].nextToken, MaxResults)
  {
    RequestsUpToSpec(assetId, pages, FinalPage(pages) + 1);
  }

  lemma {:induction false} RequestsUpToSpec(assetId: Id, pages: seq<Page>, n: nat)
    requires n <= |pages|
    ensures |RequestsUpTo(assetId, pages, n)| == n
    ensures n > 0 ==> RequestsUpTo(assetId, pages, n)[0] == ListRequest(assetId, None, MaxResults)
    ensures forall j :: 0 < j < n ==>
              RequestsUpTo(assetId, pages, n)[j] == ListRequest(assetId, pages[j - 1].nextToken, MaxResults)
  {
    if n > 1 {
      RequestsUpToSpec(assetId, pages, n - 1);
    }
  }

  /** One more page fetched: one more request, carrying the token of the
      page before, and that page's described summaries appended. */
  lemma ListingStep(assetId: Id, pages: seq<Page>, describe: Id -> PropertyEntry, fetched: nat)
    requires 1 <= fetched < |pages|
    ensures RequestsUpTo(assetId, pages, fetched + 1)
         == RequestsUpTo(assetId, pages, fetched) + [ListRequest(assetId, pages[fetched - 1].nextToken, MaxResults)]
    ensures Discovered(pages[..fetched + 1], describe)
         == Discovered(pages[..fetched], describe) + MapSeq(describe, pages[fetched].summaries)
  {
    assert pages[..fetched + 1][..fetched] == pages[..fetched];
  }

  /** The listing of `create_asset`: a first call without a token, then one
      call per continuation token, until a reply carries none. The result
      is the concatenation of every fetched page. */
  method ListAssetProperties(assetId: Id, pages: seq<Page>, describe: Id -> PropertyEntry)
    returns (entries: seq<PropertyEntry>, requests: seq<ListRequest>)
    requires |pages| > 0 && pages[|pages| - 1].nextToken.None?
    ensures requests == RequestsUpTo(assetId, pages, FinalPage(pages) + 1)
    ensures entries == Discovered(pages[..FinalPage(pages) + 1], describe)
  {
    requests := [ListRequest(assetId, None, MaxResults)];
    var response := pages[0];
    entries := ReturnElements(response, describe);
    assert pages[..1] == [pages[0]];
    assert pages[..1][..0] == [];
    ghost var last := FinalPage(pages);
    var fetched := 1;
    while response.nextToken.Some?
      invariant 1 <= fetched <= last + 1
      invariant response == pages[fetched - 1]
      invariant requests == RequestsUpTo(assetId, pages, fetched)
      invariant entries == Discovered(pages[..fetched], describe)
      decreases |pages| - fetched
    {
      assert fetched - 1 != last;
      ListingStep(assetId, pages, describe, fetched);
      requests := requests + [ListRequest(assetId, response.nextToken, MaxResults)];
      response := pages[fetched];
      var elements := ReturnElements(response, describe);
      // each element of the page is appended to the accumulated list
      entries := entries + elements;
      fetched := fetched + 1;
    }
    assert fetched == last + 1;
  }

  // ----- attribute value tagging -----

  /** A JSON literal from the assets configuration. Floating-point values
      are opaque: only their written form is kept. */
  datatype ConfigValue =
    | StrValue(s: string)
    | IntValue(i: int)
    | FloatValue(written: string)
    | BoolValue(b: bool)
    | NullValue
    | CompoundValue

  /** The `value` object of a property-value write. */
  datatype TaggedValue =
    | StringValue(s: string)
    | IntegerValue(i: int)
    | DoubleValue(written: string)
    | BooleanValue(b: bool)

  /** The configuration literal a tagged value carries. */
  function Untagged(t: TaggedValue): ConfigValue {
    match t
    case StringValue(s) => StrValue(s)
    case IntegerValue(i) => IntValue(i)
    case DoubleValue(w) => FloatValue(w)
    case BooleanValue(b) => BoolValue(b)
  }

  /** The type test on an attribute's value: strings, integers, floats and
      booleans get their tag (Python's `type(v) is int` is false for a
      boolean, so booleans are never integers); null and compound values
      match no branch. */
  function TagValue(v: ConfigValue): (r: Option<TaggedValue>)
    ensures r.None? <==> v.NullValue? || v.CompoundValue?
    ensures r.Some? ==> Untagged(r.value) == v
  {
    match v
    case StrValue(s) => Some(StringValue(s))
    case IntValue(i) => Some(IntegerValue(i))
    case FloatValue(w) => Some(DoubleValue(w))
    case BoolValue(b) => Some(BooleanValue(b))
    case NullValue => None
    case CompoundValue => None
  }

  /** Tagging recovers every tagged value from the literal it carries. */
  lemma TagUntagged(t: TaggedValue)
    ensures TagValue(Untagged(t)) == Some(t)
  {
  }

  // ----- measurement alias binding -----

  /** One measurement binding of an asset definition: the property name,
      the external data-stream alias and its notification state. */
  datatype MeasurementBinding = MeasurementBinding(name: string, alias: string, notificationState: string)

  /** A remote call of the binding loop. */
  datatype PropertyCall =
    | UpdateProperty(assetId: Id, propertyId: Id, alias: string, notificationState: string)
    | AssociateTimeSeries(alias: string, assetId: Id, propertyId: Id)

  /** The replies one binding's calls meet (`None` is success): the alias
      update, the time-series association, and the retried update. */
  datatype BindReplies = BindReplies(update: Option<ErrorCode>, associate: Option<ErrorCode>,
                                     retry: Option<ErrorCode>)

  /** The calls one binding issues against its discovered property: the
      alias update and, when it reports a conflicting operation, the
      time-series association and, if that succeeds, the same update once
      more. Any other error is reported and ends this binding. */
  function BindCalls(b: MeasurementBinding, e: PropertyEntry, replies: BindReplies): seq<PropertyCall> {
    var update := UpdateProperty(e.assetId, e.propertyId, b.alias, b.notificationState);
    if replies.update != Some(ConflictingOperation) then [update]
    else if replies.associate.Some? then [update, AssociateTimeSeries(b.alias, e.assetId, e.propertyId)]
    else [update, AssociateTimeSeries(b.alias, e.assetId, e.propertyId), update]
  }

  /** The calls of the binding loop, in binding order: a binding without a
      discovered property of its name issues nothing. */
  function BindingCalls(bindings: seq<MeasurementBinding>, entries: seq<PropertyEntry>,
                        replies: MeasurementBinding -> BindReplies): seq<PropertyCall>
  {
    if bindings == [] then []
    else
      var b := bindings[|bindings| - 1];
      BindingCalls(bindings[..|bindings| - 1], entries, replies)
        + match FirstNamed(entries, b.name)
          case None => []
          case Some(e) => BindCalls(b, e, replies(b))
  }

  /** The conflict workaround is one retry, not a loop: a binding issues
      the update first, at most three calls, and a third call only after a
      conflict and a successful association; the third call repeats the
      first exactly. */
  lemma BindCallsShape(b: MeasurementBinding, e: PropertyEntry, replies: BindReplies)
    ensures var calls := BindCalls(b, e, replies);
            && 1 <= |calls| <= 3
            && calls[0] == UpdateProperty(e.assetId, e.propertyId, b.alias, b.notificationState)
            && (|calls| > 1 <==> replies.update == Some(ConflictingOperation))
            && (|calls| == 3 <==> replies.update == Some(ConflictingOperation) && replies.associate.None?)
            && (|calls| == 3 ==> calls[2] == calls[0])
            && (|calls| > 1 ==> calls[1] == AssociateTimeSeries(b.alias, e.assetId, e.propertyId))
  {
  }

  /** Every call of the binding loop targets a property discovered under
      the name of a binding and carries that binding's alias. */
  lemma {:induction false} BindingCallsTargets(bindings: seq<MeasurementBinding>, entries: seq<PropertyEntry>,
                                               replies: MeasurementBinding -> BindReplies, c: PropertyCall)
    requires c in BindingCalls(bindings, entries, replies)
    ensures exists b, e :: b in bindings && e in entries && e.assetPropertyName == b.name
                           && c.assetId == e.assetId && c.propertyId == e.propertyId && c.alias == b.alias
  {
    var b := bindings[|bindings| - 1];
    var prefix := bindings[..|bindings| - 1];
    if c in BindingCalls(prefix, entries, replies) {
      BindingCallsTargets(prefix, entries, replies, c);
      var b', e :| b' in prefix && e in entries && e.assetPropertyName == b'.name
                   && c.assetId == e.assetId && c.propertyId == e.propertyId && c.alias == b'.alias;
      assert b' in bindings;
    } else {
      var e := FirstNamed(entries, b.name).value;
      assert c in BindCalls(b, e, replies(b));
      assert b in bindings;
    }
  }

  /** Every binding whose name is discovered issues its alias update, to
      the first discovered property of that name. */
  lemma {:induction false} BindingCallsComplete(bindings: seq<MeasurementBinding>, entries: seq<PropertyEntry>,
                                                replies: MeasurementBinding -> BindReplies, b: MeasurementBinding)
    requires b in bindings && FirstNamed(entries, b.name).Some?
    ensures var e := FirstNamed(entries, b.name).value;
            UpdateProperty(e.assetId, e.propertyId, b.alias, b.notificationState)
              in BindingCalls(bindings, entries, replies)
  {
    var prefix := bindings[..|bindings| - 1];
    var e := FirstNamed(entries, b.name).value;
    if b in prefix {
      BindingCallsComplete(prefix, entries, replies, b);
    } else {
      assert b == bindings[|bindings| - 1];
      assert BindCalls(b, e, replies(b))[0] == UpdateProperty(e.assetId, e.propertyId, b.alias, b.notificationState);
    }
  }

  /** The measurement loop of `create_asset`: each binding is matched to the
      first discovered property of its name and bound to its alias, with the
      one-retry workaround for a stream not yet associated. The fixed delay
      before each update is not modelled. */
  method BindMeasurements(bindings: seq<MeasurementBinding>, entries: seq<PropertyEntry>,
                          replies: MeasurementBinding -> BindReplies)
    returns (calls: seq<PropertyCall>)
    ensures calls == BindingCalls(bindings, entries, replies)
  {
    calls := [];
    for i := 0 to |bindings|
      invariant calls == BindingCalls(bindings[..i], entries, replies)
    {
      assert bindings[..i + 1][..i] == bindings[..i];
      var b := bindings[i];
      var found := FindNamed(entries, b.name);
      if found.Some? {
        var e := found.value;
        var reply := replies(b);
        var update := UpdateProperty(e.assetId, e.propertyId, b.alias, b.notificationState);
        calls := calls + [update];
        if reply.update == Some(ConflictingOperation) {
          calls := calls + [AssociateTimeSeries(b.alias, e.assetId, e.propertyId)];
          if reply.associate.None? {
            calls := calls + [update];
          }
        }
      }
    }
    assert bindings[..|bindings|] == bindings;
  }

  // ----- attribute seeding -----

  /** One attribute seed of an asset definition: a property name and the
      literal to write to it. */
  datatype AttributeSeed = AttributeSeed(name: string, value: ConfigValue)

  /** One single-entry property-value write. Its entry id (random) and
      timestamp (the clock) are not modelled. */
  datatype ValueWrite = ValueWrite(assetId: Id, propertyId: Id, value: TaggedValue)

  /** The first discovered entry whose property name is `name`: the inner
      loop over the discovered entries stops at its first match. */
  function FirstNamed(entries: seq<PropertyEntry>, name: string): (r: Option<PropertyEntry>)
    ensures r.Some? ==> r.value in entries && r.value.assetPropertyName == name
    ensures r.Some? ==> exists k :: 0 <= k < |entries| && entries[k] == r.value &&
                                    forall j :: 0 <= j < k ==> entries[j].assetPropertyName != name
    ensures r.None? <==> forall e :: e in entries ==> e.assetPropertyName != name
  {
    if entries == [] then None
    else if entries[0].assetPropertyName == name then Some(entries[0])
    else
      var r := FirstNamed(entries[1..], name);
      if r.Some? then
        var k :| 0 <= k < |entries[1..]| && entries[1..][k] == r.value &&
                 forall j :: 0 <= j < k ==> entries[1..][j].assetPropertyName != name;
        assert entries[k + 1] == r.value;
        r
      else r
  }

  /** The search of the discovered entries for one attribute's name. */
  method FindNamed(entries: seq<PropertyEntry>, name: string) returns (found: Option<PropertyEntry>)
    ensures found == FirstNamed(entries, name)
  {
    found := None;
    var j := 0;
    while j < |entries|
      invariant 0 <= j <= |entries|
      invariant FirstNamed(entries, name) == FirstNamed(entries[j..], name)
    {
      assert entries[j..][1..] == entries[j + 1..];
      if entries[j].assetPropertyName == name {
        found := Some(entries[j]);
        return;
      }
      j := j + 1;
    }
  }

  /** The writes one attribute seed issues: one write when its name matches
      a discovered property and its value has a tag, none otherwise. */
  function SeedWrite(seed: AttributeSeed, entries: seq<PropertyEntry>): seq<ValueWrite> {
    match FirstNamed(entries, seed.name)
    case None => []
    case Some(e) =>
      match TagValue(seed.value)
      case None => []
      case Some(v) => [ValueWrite(e.assetId, e.propertyId, v)]
  }

  /** The writes of the attribute loop, in seed order, with an untyped
      value skipped. */
  function SeedWrites(seeds: seq<AttributeSeed>, entries: seq<PropertyEntry>): seq<ValueWrite> {
    if seeds == [] then []
    else SeedWrites(seeds[..|seeds| - 1], entries) + SeedWrite(seeds[|seeds| - 1], entries)
  }

  /** Every write carries the literal of a seed, to a property discovered
      under that seed's name. */
  lemma {:induction false} SeedWritesSound(seeds: seq<AttributeSeed>, entries: seq<PropertyEntry>,
                                           w: ValueWrite)
    requires w in SeedWrites(seeds, entries)
    ensures exists s, e :: s in seeds && e in entries && e.assetPropertyName == s.name
                           && w.assetId == e.assetId && w.propertyId == e.propertyId
                           && Untagged(w.value) == s.value
  {
    var last := seeds[|seeds| - 1];
    if w in SeedWrites(seeds[..|seeds| - 1], entries) {
      SeedWritesSound(seeds[..|seeds| - 1], entries, w);
      var s, e :| s in seeds[..|seeds| - 1] && e in entries && e.assetPropertyName == s.name
                  && w.assetId == e.assetId && w.propertyId == e.propertyId
                  && Untagged(w.value) == s.value;
      assert s in seeds;
    } else {
      assert w in SeedWrite(last, entries);
      var e := FirstNamed(entries, last.name).value;
      assert last in seeds;
      assert e in entries && e.assetPropertyName == last.name;
    }
  }

  /** Every seed whose name matches a discovered property and whose value
      has a tag is written, to the first property of that name. */
  lemma {:induction false} SeedWritesComplete(seeds: seq<AttributeSeed>, entries: seq<PropertyEntry>,
                                              s: AttributeSeed)
    requires s in seeds && FirstNamed(entries, s.name).Some? && TagValue(s.value).Some?
    ensures ValueWrite(FirstNamed(entries, s.name).value.assetId,
                       FirstNamed(entries, s.name).value.propertyId,
                       TagValue(s.value).value) in SeedWrites(seeds, entries)
  {
    var prefix := seeds[..|seeds| - 1];
    if s in prefix {
      SeedWritesComplete(prefix, entries, s);
    } else {
      assert s == seeds[|seeds| - 1];
    }
  }

  /** The attribute loop of `create_asset`: for each seed, the first
      discovered property of the same name receives the seed's tagged
      value in one write; a seed without a match, or whose value has no
      tag, issues nothing. A rejected write is reported and the loop goes
      on, so the writes issued do not depend on the replies. */
  method SeedAttributes(seeds: seq<AttributeSeed>, entries: seq<PropertyEntry>)
    returns (writes: seq<ValueWrite>)
    ensures writes == SeedWrites(seeds, entries)
  {
    writes := [];
    for i := 0 to |seeds|
      invariant writes == SeedWrites(seeds[..i], entries)
    {
      assert seeds[..i + 1][..i] == seeds[..i];
      var seed := seeds[i];
      var found := FindNamed(entries, seed.name);
      if found.Some? {
        var tag := TagValue(seed.value);
        if tag.Some? {
          writes := writes + [ValueWrite(found.value.assetId, found.value.propertyId, tag.value)];
        }
      }
    }
    assert seeds[..|seeds|] == seeds;
  }

  /** The attribute loop's state as written: the writes so far and the
      value `val` last held. */
  datatype SeedState = SeedState(writes: seq<ValueWrite>, val: Option<TaggedValue>)

  /** One seed as written: a value with no tag leaves `val` as the previous
      matched seed set it, and that stale value is written; when no seed
      set it yet, reading it raises `UnboundLocalError`, which the write's
      error handler does not catch. */
  function SeedStepAsWritten(st: SeedState, seed: AttributeSeed, entries: seq<PropertyEntry>)
    : (r: Result<SeedState>)
    ensures r.Failure? <==>
              FirstNamed(entries, seed.name).Some? && TagValue(seed.value).None? && st.val.None?
    ensures r.Failure? ==> r.fault == UnboundLocal("val")
  {
    match FirstNamed(entries, seed.name)
    case None => Success(st)
    case Some(e) =>
      var val := if TagValue(seed.value).Some? then TagValue(seed.value) else st.val;
      match val
      case None => Failure(UnboundLocal("val"))
      case Some(v) => Success(SeedState(st.writes + [ValueWrite(e.assetId, e.propertyId, v)], val))
  }

  /** The attribute loop as written, over the seeds in order. */
  function SeedWritesAsWritten(seeds: seq<AttributeSeed>, entries: seq<PropertyEntry>)
    : (r: Result<SeedState>)
    ensures r.Failure? ==> r.fault == UnboundLocal("val")
  {
    if seeds == [] then Success(SeedState([], None))
    else
      match SeedWritesAsWritten(seeds[..|seeds| - 1], entries)
      case Failure(f) => Failure(f)
      case Success(st) => SeedStepAsWritten(st, seeds[|seeds| - 1], entries)
  }

  /** The first seed whose name is discovered has no tag. */
  ghost predicate FirstMatchUntyped(seeds: seq<AttributeSeed>, entries: seq<PropertyEntry>) {
    exists i :: 0 <= i < |seeds| && FirstNamed(entries, seeds[i].name).Some? && TagValue(seeds[i].value).None? &&
                forall j :: 0 <= j < i ==> FirstNamed(entries, seeds[j].name).None?
  }

  /** As written, the attribute loop raises exactly when the first seed
      whose name is discovered has no tag: every later untyped seed finds
      `val` bound. After a loop that did not raise, `val` is bound exactly
      when some seed's name was discovered. */
  lemma {:induction false} SeedWritesAsWrittenFails(seeds: seq<AttributeSeed>, entries: seq<PropertyEntry>)
    ensures SeedWritesAsWritten(seeds, entries).Failure? <==> FirstMatchUntyped(seeds, entries)
    ensures SeedWritesAsWritten(seeds, entries).Success? ==>
              (SeedWritesAsWritten(seeds, entries).value.val.None? <==> NoneMatched(seeds, entries))
  {
    if seeds != [] {
      var n := |seeds| - 1;
      var prefix, s := seeds[..n], seeds[n];
      SeedWritesAsWrittenFails(prefix, entries);
      assert seeds == prefix + [s];
      FirstMatchUntypedSnoc(prefix, s, entries);
      NoneMatchedSnoc(prefix, s, entries);
    }
  }

  /** No seed's name is discovered. */
  ghost predicate NoneMatched(seeds: seq<AttributeSeed>, entries: seq<PropertyEntry>) {
    forall j :: 0 <= j < |seeds| ==> FirstNamed(entries, seeds[j].name).None?
  }

  lemma NoneMatchedSnoc(prefix: seq<AttributeSeed>, s: AttributeSeed, entries: seq<PropertyEntry>)
    ensures NoneMatched(prefix + [s], entries) <==>
              NoneMatched(prefix, entries) && FirstNamed(entries, s.name).None?
  {
    var seeds := prefix + [s];
    assert forall j :: 0 <= j < |prefix| ==> seeds[j] == prefix[j];
    assert seeds[|prefix|] == s;
  }

  lemma FirstMatchUntypedSnoc(prefix: seq<AttributeSeed>, s: AttributeSeed, entries: seq<PropertyEntry>)
    ensures FirstMatchUntyped(prefix + [s], entries) <==>
              || FirstMatchUntyped(prefix, entries)
              || (NoneMatched(prefix, entries) && FirstNamed(entries, s.name).Some? && TagValue(s.value).None?)
  {
    if FirstMatchUntyped(prefix + [s], entries) {
      FirstMatchUntypedOfSnoc(prefix, s, entries);
    }
    if || FirstMatchUntyped(prefix, entries)
       || (NoneMatched(prefix, entries) && FirstNamed(entries, s.name).Some? && TagValue(s.value).None?) {
      FirstMatchUntypedToSnoc(prefix, s, entries);
    }
  }

  lemma FirstMatchUntypedOfSnoc(prefix: seq<AttributeSeed>, s: AttributeSeed, entries: seq<PropertyEntry>)
    requires FirstMatchUntyped(prefix + [s], entries)
    ensures || FirstMatchUntyped(prefix, entries)
            || (NoneMatched(prefix, entries) && FirstNamed(entries, s.name).Some? && TagValue(s.value).None?)
  {
    var seeds := prefix + [s];
    var i :| 0 <= i < |seeds| && FirstNamed(entries, seeds[i].name).Some? && TagValue(seeds[i].value).None? &&
             forall j :: 0 <= j < i ==> FirstNamed(entries, seeds[j].name).None?;
    if i < |prefix| {
      assert seeds[i] == prefix[i];
      assert forall j :: 0 <= j < i ==> seeds[j] == prefix[j];
    } else {
      assert seeds[i] == s;
      assert forall j :: 0 <= j < |prefix| ==> seeds[j] == prefix[j];
    }
  }

  lemma FirstMatchUntypedToSnoc(prefix: seq<AttributeSeed>, s: AttributeSeed, entries: seq<PropertyEntry>)
    requires || FirstMatchUntyped(prefix, entries)
             || (NoneMatched(prefix, entries) && FirstNamed(entries, s.name).Some? && TagValue(s.value).None?)
    ensures FirstMatchUntyped(prefix + [s], entries)
  {
    var seeds := prefix + [s];
    assert forall j :: 0 <= j < |prefix| ==> seeds[j] == prefix[j];
    if FirstMatchUntyped(prefix, entries) {
      var i :| 0 <= i < |prefix| && FirstNamed(entries, prefix[i].name).Some? && TagValue(prefix[i].value).None? &&
               forall j :: 0 <= j < i ==> FirstNamed(entries, prefix[j].name).None?;
      assert seeds[i] == prefix[i];
    } else {
      assert seeds[|prefix|] == s;
    }
  }

  /** Once a seed has raised, the later seeds do not run. */
  lemma {:induction false} SeedsFailureStays(seeds: seq<AttributeSeed>, entries: seq<PropertyEntry>, k: nat)
    requires k <= |seeds| && SeedWritesAsWritten(seeds[..k], entries).Failure?
    ensures SeedWritesAsWritten(seeds, entries) == SeedWritesAsWritten(seeds[..k], entries)
  {
    if k < |seeds| {
      assert seeds[..|seeds| - 1][..k] == seeds[..k];
      SeedsFailureStays(seeds[..|seeds| - 1], entries, k);
    } else {
      assert seeds[..k] == seeds;
    }
  }

  /** The attribute loop of `create_asset` as the source writes it: `val`
      keeps its value from one seed to the next. */
  method SeedAttributesAsWritten(seeds: seq<AttributeSeed>, entries: seq<PropertyEntry>)
    returns (r: Result<SeedState>)
    ensures r == SeedWritesAsWritten(seeds, entries)
  {
    var writes := [];
    var val: Option<TaggedValue> := None;
    assert seeds[..0] == [];
    for i := 0 to |seeds|
      invariant SeedWritesAsWritten(seeds[..i], entries) == Success(SeedState(writes, val))
    {
      assert seeds[..i + 1][..i] == seeds[..i];
      var seed := seeds[i];
      var found := FindNamed(entries, seed.name);
      if found.Some? {
        var tag := TagValue(seed.value);
        if tag.Some? {
          val := tag;
        }
        if val.None? {
          SeedsFailureStays(seeds, entries, i + 1);
          return Failure(UnboundLocal("val"));
        }
        writes := writes + [ValueWrite(found.value.assetId, found.value.propertyId, val.value)];
      }
    }
    assert seeds[..|seeds|] == seeds;
    r := Success(SeedState(writes, val));
  }

  /** When every seed's value has a tag, the loop as written issues exactly
      the writes of the corrected loop. */
  lemma {:induction false} AsWrittenAgreesWhenTyped(seeds: seq<AttributeSeed>, entries: seq<PropertyEntry>)
    requires forall i :: 0 <= i < |seeds| ==> TagValue(seeds[i].value).Some?
    ensures SeedWritesAsWritten(seeds, entries).Success?
    ensures SeedWritesAsWritten(seeds, entries).value.writes == SeedWrites(seeds, entries)
  {
    if seeds != [] {
      AsWrittenAgreesWhenTyped(seeds[..|seeds| - 1], entries);
      assert TagValue(seeds[|seeds| - 1].value).Some?;
    }
  }

  /** A null attribute after a string one receives the string as written,
      where the corrected loop writes only the string. */
  lemma StaleValueWritten()
    ensures var entries := [PropertyEntry("Pump-01", "a1", "p1", "Vendor"),
                            PropertyEntry("Pump-01", "a1", "p2", "Serial")];
            var seeds := [AttributeSeed("Vendor", StrValue("Acme")), AttributeSeed("Serial", NullValue)];
            && SeedWritesAsWritten(seeds, entries)
               == Success(SeedState([ValueWrite("a1", "p1", StringValue("Acme")),
                                     ValueWrite("a1", "p2", StringValue("Acme"))],
                                    Some(StringValue("Acme"))))
            && SeedWrites(seeds, entries) == [ValueWrite("a1", "p1", StringValue("Acme"))]
  {
    var entries := [PropertyEntry("Pump-01", "a1", "p1", "Vendor"),
                    PropertyEntry("Pump-01", "a1", "p2", "Serial")];
    var seeds := [AttributeSeed("Vendor", StrValue("Acme")), AttributeSeed("Serial", NullValue)];
    assert seeds[..1] == [seeds[0]];
    assert FirstNamed(entries, "Vendor") == Some(entries[0]);
    assert FirstNamed(entries, "Serial") == Some(entries[1]);
    assert seeds[..1][..0] == [];
    var first := SeedState([ValueWrite("a1", "p1", StringValue("Acme"))], Some(StringValue("Acme")));
    assert TagValue(seeds[0].value) == Some(StringValue("Acme"));
    assert FirstNamed(entries, seeds[0].name) == Some(entries[0]);
    assert [] + [ValueWrite("a1", "p1", StringValue("Acme"))] == first.writes;
    assert SeedStepAsWritten(SeedState([], None), seeds[0], entries) == Success(first);
    assert SeedWritesAsWritten(seeds[..1], entries)
        == Success(first);
    assert FirstNamed(entries, seeds[1].name) == Some(entries[1]);
    assert TagValue(seeds[1].value) == None;
    assert first.writes + [ValueWrite("a1", "p2", StringValue("Acme"))]
        == [ValueWrite("a1", "p1", StringValue("Acme")), ValueWrite("a1", "p2", StringValue("Acme"))];
  }

  /** A null first attribute aborts the asset as written. */
  lemma UntypedFirstAborts(entries: seq<PropertyEntry>, name: string)
    requires FirstNamed(entries, name).Some?
    ensures SeedWritesAsWritten([AttributeSeed(name, NullValue)], entries) == Failure(UnboundLocal("val"))
    ensures SeedWrites([AttributeSeed(name, NullValue)], entries) == []
  {
    assert [AttributeSeed(name, NullValue)][..0] == [];
  }

  // ----- create_asset -----

  /** The part of an asset definition the modelled steps read. */
  datatype AssetDefinition = AssetDefinition(assetName: string, modelName: string,
                                             measurements: seq<MeasurementBinding>,
                                             attributes: seq<AttributeSeed>)

  /** The remote replies one asset's creation meets: the create call, the
      pages of the property listing, the per-property describe call, and
      the calls binding each measurement. */
  datatype AssetReplies = AssetReplies(create: CreateReply, pages: seq<Page>,
                                       describe: Id -> PropertyEntry,
                                       binds: MeasurementBinding -> BindReplies)

  ghost predicate ValidReplies(replies: AssetReplies) {
    |replies.pages| > 0 && replies.pages[|replies.pages| - 1].nextToken.None?
  }

  /** The property entries discovered for a created asset. */
  function Properties(replies: AssetReplies): seq<PropertyEntry>
    requires ValidReplies(replies)
  {
    Discovered(replies.pages[..FinalPage(replies.pages) + 1], replies.describe)
  }

  /** What one asset's creation returns, `{asset_name: id}` when the asset
      was created, with what it did on the way: the discovered property
      entries, the binding calls and the attribute writes issued. */
  datatype AssetOutcome = AssetOutcome(created: map<string, Id>, properties: seq<PropertyEntry>,
                                       calls: seq<PropertyCall>, writes: seq<ValueWrite>)

  /** The steps after a successful create call: record the id, discover
      the new asset's properties, then bind its measurements. */
  method RecordAndDiscover(store: Store, asset: AssetDefinition, assetId: Id, replies: AssetReplies)
    returns (entries: seq<PropertyEntry>, calls: seq<PropertyCall>)
    requires AssetsKey in store.resources && ValidReplies(replies)
    modifies store`resources
    ensures store.resources == old(store.resources)[AssetsKey := old(store.resources)[AssetsKey] + [assetId]]
    ensures entries == Properties(replies)
    ensures calls == BindingCalls(asset.measurements, entries, replies.binds)
  {
    store.AddResourcesElement(AssetsKey, assetId);
    var requests;
    entries, requests := ListAssetProperties(assetId, replies.pages, replies.describe);
    calls := BindMeasurements(asset.measurements, entries, replies.binds);
  }

  /** `create_asset` with a rejected create call isolated to this asset: the
      asset is skipped and the manifest is left alone. A model name missing
      from the resolved model map raises `KeyError`, which aborts the run. */
  method CreateAsset(store: Store, asset: AssetDefinition, assetModels: map<string, Id>,
                     replies: AssetReplies)
    returns (r: Result<AssetOutcome>)
    requires AssetsKey in store.resources && ValidReplies(replies)
    modifies store`resources
    ensures asset.modelName !in assetModels ==>
              r == Failure(MissingAssetModel(asset.modelName)) && store.resources == old(store.resources)
    ensures asset.modelName in assetModels && replies.create.Rejected? ==>
              r == Success(AssetOutcome(map[], [], [], [])) && store.resources == old(store.resources)
    ensures asset.modelName in assetModels && replies.create.Created? ==>
              && r.Success?
              && r.value.created == map[asset.assetName := replies.create.id]
              && r.value.properties == Properties(replies)
              && r.value.calls == BindingCalls(asset.measurements, r.value.properties, replies.binds)
              && r.value.writes == SeedWrites(asset.attributes, r.value.properties)
              && store.resources == old(store.resources)[AssetsKey :=
                                      old(store.resources)[AssetsKey] + [replies.create.id]]
  {
    if asset.modelName !in assetModels {
      return Failure(MissingAssetModel(asset.modelName));
    }
    match replies.create
    case Rejected(_) =>
      r := Success(AssetOutcome(map[], [], [], []));
    case Created(id) =>
      var entries, calls := RecordAndDiscover(store, asset, id, replies);
      var writes := SeedAttributes(asset.attributes, entries);
      r := Success(AssetOutcome(map[asset.assetName := id], entries, calls, writes));
  }

  /** `create_asset` as written: after a rejected create call the listing
      still reads `create_asset_response`, which was never assigned, so the
      asset raises `UnboundLocalError`; a created asset is recorded,
      discovered and bound, and then seeded by the attribute loop as
      written, which may raise in turn. */
  method CreateAssetAsWritten(store: Store, asset: AssetDefinition, assetModels: map<string, Id>,
                              replies: AssetReplies)
    returns (r: Result<AssetOutcome>)
    requires AssetsKey in store.resources && ValidReplies(replies)
    modifies store`resources
    ensures asset.modelName !in assetModels ==>
              r == Failure(MissingAssetModel(asset.modelName)) && store.resources == old(store.resources)
    ensures asset.modelName in assetModels && replies.create.Rejected? ==>
              r == Failure(UnboundLocal("create_asset_response")) && store.resources == old(store.resources)
    ensures asset.modelName in assetModels && replies.create.Created? ==>
              && store.resources == old(store.resources)[AssetsKey :=
                                      old(store.resources)[AssetsKey] + [replies.create.id]]
              && match SeedWritesAsWritten(asset.attributes, Properties(replies))
                 case Failure(f) => r == Failure(f)
                 case Success(st) =>
                   r == Success(AssetOutcome(map[asset.assetName := replies.create.id], Properties(replies),
                                             BindingCalls(asset.measurements, Properties(replies), replies.binds),
                                             st.writes))
  {
    if asset.modelName !in assetModels {
      return Failure(MissingAssetModel(asset.modelName));
    }
    match replies.create
    case Rejected(_) =>
      r := Failure(UnboundLocal("create_asset_response"));
    case Created(id) =>
      var entries, calls := RecordAndDiscover(store, asset, id, replies);
      var seeded := SeedAttributesAsWritten(asset.attributes, entries);
      if seeded.Failure? {
        return Failure(seeded.fault);
      }
      r := Success(AssetOutcome(map[asset.assetName := id], entries, calls, seeded.value.writes));
  }

  /** The fault one asset's worker raises under `build`. */
  function AssetFault(asset: AssetDefinition, assetModels: map<string, Id>, replies: AssetReplies,
                      build: Build): Option<Fault>
    requires ValidReplies(replies)
  {
    if asset.modelName !in assetModels then Some(MissingAssetModel(asset.modelName))
    else if build.Corrected? then None
    else
      match replies.create
      case Rejected(_) => Some(UnboundLocal("create_asset_response"))
      case Created(_) =>
        match SeedWritesAsWritten(asset.attributes, Properties(replies))
        case Failure(f) => Some(f)
        case Success(_) => None
  }

  /** Under both builds a missing model raises `KeyError`. The corrected
      worker raises nothing else, listing and describe calls always
      answering in this model. The worker as written also raises
      `UnboundLocalError`: on `create_asset_response` after a rejected
      create, and on `val` after a successful one exactly when the first
      attribute whose name is discovered has no supported type. */
  lemma AssetFaultSpec(asset: AssetDefinition, assetModels: map<string, Id>, replies: AssetReplies,
                       build: Build)
    requires ValidReplies(replies)
    ensures asset.modelName !in assetModels ==>
              AssetFault(asset, assetModels, replies, build) == Some(MissingAssetModel(asset.modelName))
    ensures build.Corrected? ==>
              (AssetFault(asset, assetModels, replies, build).Some? <==> asset.modelName !in assetModels)
    ensures build.AsWritten? && asset.modelName in assetModels && replies.create.Rejected? ==>
              AssetFault(asset, assetModels, replies, build) == Some(UnboundLocal("create_asset_response"))
    ensures build.AsWritten? && asset.modelName in assetModels && replies.create.Created? ==>
              && (AssetFault(asset, assetModels, replies, build).Some? <==>
                    FirstMatchUntyped(asset.attributes, Properties(replies)))
              && (AssetFault(asset, assetModels, replies, build).Some? ==>
                    AssetFault(asset, assetModels, replies, build) == Some(UnboundLocal("val")))
  {
    SeedWritesAsWrittenFails(asset.attributes, Properties(replies));
  }

  /** An asset whose name already exists remotely aborts the whole run as
      written, while the corrected worker skips it. */
  lemma ExistingAssetAbortsRun()
    ensures var asset := AssetDefinition("Pump-01", "Pump", [], []);
            var models := map["Pump" := "model-1"];
            var replies := AssetReplies(Rejected(ResourceAlreadyExists), [Page([], None)],
                                        (p: Id) => PropertyEntry("Pump-01", "", p, ""),
                                        (b: MeasurementBinding) => BindReplies(None, None, None));
            && AssetFault(asset, models, replies, AsWritten) == Some(UnboundLocal("create_asset_response"))
            && AssetFault(asset, models, replies, Corrected) == None
  {
  }
}
