/**
  The cached summaries of the tail of a result list: lookups grouped by prompt version give each
  chunk what a lookup of its own would, and the response mode that uses them.
*/
module TailSummaries {
  import opened Options

  type Sha = nat

  datatype Source = Source(id: string)

  // A tail chunk: the hash of its text, and the source it was indexed from.
  datatype Entry = Entry(sha: Sha, source: Option<Source>)

  // The summary cache; the empty text is the stored rejection.
  type Cache = map<(Sha, int), string>

  // `cache_get_many`
  function CacheGetMany(cache: Cache, shas: set<Sha>, version: int, includeRejected: bool): map<Sha, string> {
    map sha | sha in shas && (sha, version) in cache && (includeRejected || cache[(sha, version)] != "") ::
      cache[(sha, version)]
  }

  // The version a source is recorded at. A source with an empty id counts as none.
  function RecordedOf(recorded: map<Source, Option<int>>, source: Option<Source>): Option<int> {
    if source.Some? && source.value.id != "" && source.value in recorded then recorded[source.value] else None
  }

  // ---------------------------------------------------------------------------
  // The rule for one chunk
  // ---------------------------------------------------------------------------

  /** What one chunk's own lookup would give: the cached value at its source's recorded version,
      a rejection included; otherwise an accepted value at the source's effective version. */
  function Rule(cache: Cache, recorded: map<Source, Option<int>>, effective: Option<Source> -> int,
      e: Entry): Option<string> {
    var at := RecordedOf(recorded, e.source);
    if at.Some? && (e.sha, at.value) in cache then Some(cache[(e.sha, at.value)])
    else if (e.sha, effective(e.source)) in cache && cache[(e.sha, effective(e.source))] != "" then
      Some(cache[(e.sha, effective(e.source))])
    else None
  }

  // With an explicit version: an accepted value at that version.
  function ExplicitRule(cache: Cache, version: int, e: Entry): Option<string> {
    if (e.sha, version) in cache && cache[(e.sha, version)] != "" then Some(cache[(e.sha, version)]) else None
  }

  // The table answers every entry by the rule, and nothing else.
  ghost predicate Answers(summaries: map<Entry, string>, tail: seq<Entry>, rule: Entry -> Option<string>) {
    && (forall e :: e in summaries ==> e in tail)
    && (forall e :: e in tail ==> (e in summaries <==> rule(e).Some?))
    && (forall e :: e in summaries ==> rule(e) == Some(summaries[e]))
  }

  // ---------------------------------------------------------------------------
  // The grouped lookup
  // ---------------------------------------------------------------------------

  lemma EmptyOrNot(versions: set<int>)
    ensures versions == {} || exists v :: v in versions
  {
    if forall v :: v !in versions {
      assert versions == {};
    }
  }

  // The hashes to look up at each recorded version.
  method GroupByRecorded(tail: seq<Entry>, recorded: map<Source, Option<int>>) returns (groups: map<int, set<Sha>>)
    ensures forall e :: e in tail && RecordedOf(recorded, e.source).Some? ==>
      RecordedOf(recorded, e.source).value in groups && e.sha in groups[RecordedOf(recorded, e.source).value]
  {
    groups := map[];
    for i := 0 to |tail|
      invariant forall k :: 0 <= k < i && RecordedOf(recorded, tail[k].source).Some? ==>
        RecordedOf(recorded, tail[k].source).value in groups &&
        tail[k].sha in groups[RecordedOf(recorded, tail[k].source).value]
    {
      var version := RecordedOf(recorded, tail[i].source);
      if version.Some? {
        var shas := if version.value in groups then groups[version.value] else {};
        groups := groups[version.value := shas + {tail[i].sha}];
      }
    }
  }

  // One cache read per version.
  method ReadGroups(cache: Cache, groups: map<int, set<Sha>>) returns (rows: map<int, map<Sha, string>>)
    ensures rows.Keys == groups.Keys
    ensures forall v :: v in groups ==> rows[v] == CacheGetMany(cache, groups[v], v, true)
  {
    rows := map[];
    var left: set<int> := groups.Keys;
    while left != {}
      invariant left <= groups.Keys && rows.Keys == groups.Keys - left
      invariant forall v :: v in rows ==> rows[v] == CacheGetMany(cache, groups[v], v, true)
      decreases left
    {
      EmptyOrNot(left);
      var v :| v in left;
      rows := rows[v := CacheGetMany(cache, groups[v], v, true)];
      left := left - {v};
    }
  }

  function AtRecorded(cache: Cache, recorded: map<Source, Option<int>>, e: Entry): Option<string> {
    var at := RecordedOf(recorded, e.source);
    if at.Some? && (e.sha, at.value) in cache then Some(cache[(e.sha, at.value)]) else None
  }

  method ResolveRecorded(cache: Cache, recorded: map<Source, Option<int>>, tail: seq<Entry>)
    returns (summaries: map<Entry, string>)
    ensures Answers(summaries, tail, e => AtRecorded(cache, recorded, e))
  {
    var groups := GroupByRecorded(tail, recorded);
    var byVersion := ReadGroups(cache, groups);
    summaries := map[];
    for i := 0 to |tail|
      invariant Answers(summaries, tail[..i], e => AtRecorded(cache, recorded, e))
    {
      var version := RecordedOf(recorded, tail[i].source);
      assert tail[i] in tail;
      if version.Some? {
        var rows := if version.value in byVersion then byVersion[version.value] else map[];
        if tail[i].sha in rows {
          summaries := summaries[tail[i] := rows[tail[i].sha]];
        }
      }
    }
    assert tail[..|tail|] == tail;
  }

  // The entries to read again, by effective version.
  method GroupByEffective(tail: seq<Entry>, known: map<Entry, string>, effective: Option<Source> -> int)
    returns (groups: map<int, seq<Entry>>)
    ensures forall v :: v in groups ==>
              forall e :: e in groups[v] ==> e in tail && e !in known && effective(e.source) == v
    ensures forall e :: e in tail && e !in known ==> effective(e.source) in groups && e in groups[effective(e.source)]
  {
    groups := map[];
    for i := 0 to |tail|
      invariant forall v :: v in groups ==>
                  forall e :: e in groups[v] ==> e in tail && e !in known && effective(e.source) == v
      invariant forall k :: 0 <= k < i && tail[k] !in known ==>
        effective(tail[k].source) in groups && tail[k] in groups[effective(tail[k].source)]
    {
      if tail[i] !in known {
        var version := effective(tail[i].source);
        groups := groups[version := (if version in groups then groups[version] else []) + [tail[i]]];
      }
    }
  }

  // The second reads, in any order of the versions.
  method ResolveEffective(cache: Cache, effective: Option<Source> -> int, tail: seq<Entry>, known: map<Entry, string>)
    returns (summaries: map<Entry, string>)
    requires forall e :: e in known ==> e in tail
    ensures forall e :: e in known ==> e in summaries && summaries[e] == known[e]
    ensures forall e :: e in summaries ==> e in tail
    ensures forall e :: e in tail && e !in known ==>
      (e in summaries <==> ExplicitRule(cache, effective(e.source), e).Some?) &&
      (e in summaries ==> ExplicitRule(cache, effective(e.source), e) == Some(summaries[e]))
  {
    var groups := GroupByEffective(tail, known, effective);
    summaries := known;
    var left: set<int> := groups.Keys;
    while left != {}
      invariant left <= groups.Keys
      invariant forall e :: e in known ==> e in summaries && summaries[e] == known[e]
      invariant forall e :: e in summaries ==> e in tail
      invariant forall e :: e in tail && e !in known && effective(e.source) in left ==> e !in summaries
      invariant forall e :: e in tail && e !in known && effective(e.source) !in left ==>
        (e in summaries <==> ExplicitRule(cache, effective(e.source), e).Some?) &&
        (e in summaries ==> ExplicitRule(cache, effective(e.source), e) == Some(summaries[e]))
      decreases left
    {
      EmptyOrNot(left);
      var v :| v in left;
      summaries := ReadAgain(cache, v, groups[v], summaries);
      left := left - {v};
    }
  }

  method ReadAgain(cache: Cache, version: int, pairs: seq<Entry>, known: map<Entry, string>)
    returns (summaries: map<Entry, string>)
    requires forall e :: e in pairs ==> e !in known
    ensures forall e :: e !in pairs ==> (e in summaries <==> e in known)
    ensures forall e :: e !in pairs && e in known ==> summaries[e] == known[e]
    ensures forall e :: e in pairs ==>
      (e in summaries <==> ExplicitRule(cache, version, e).Some?) &&
      (e in summaries ==> ExplicitRule(cache, version, e) == Some(summaries[e]))
  {
    var fallback := CacheGetMany(cache, set e | e in pairs :: e.sha, version, false);
    summaries := known;
    for i := 0 to |pairs|
      invariant forall e :: e !in pairs[..i] ==> (e in summaries <==> e in known)
      invariant forall e :: e !in pairs[..i] && e in known ==> summaries[e] == known[e]
      invariant forall e :: e in pairs[..i] ==>
        (e in summaries <==> ExplicitRule(cache, version, e).Some?) &&
        (e in summaries ==> ExplicitRule(cache, version, e) == Some(summaries[e]))
    {
      assert pairs[i] in pairs;
      assert pairs[..i + 1] == pairs[..i] + [pairs[i]];
      if pairs[i].sha in fallback && pairs[i] !in summaries {
        summaries := summaries[pairs[i] := fallback[pairs[i].sha]];
      }
    }
    assert pairs[..|pairs|] == pairs;
  }

  // A read of all hashes at one version answers each entry as its own would.
  lemma ReadAnswers(cache: Cache, shas: set<Sha>, version: int, e: Entry)
    requires e.sha in shas
    ensures
      var bySha := CacheGetMany(cache, shas, version, false);
      && (e.sha in bySha <==> ExplicitRule(cache, version, e).Some?)
      && (e.sha in bySha ==> ExplicitRule(cache, version, e) == Some(bySha[e.sha]))
  {
  }

  method ResolveExplicit(cache: Cache, tail: seq<Entry>, version: int) returns (summaries: map<Entry, string>)
    ensures Answers(summaries, tail, e => ExplicitRule(cache, version, e))
  {
    var shas := set e | e in tail :: e.sha;
    var bySha := CacheGetMany(cache, shas, version, false);
    summaries := map e | e in tail && e.sha in bySha :: bySha[e.sha];
    ghost var rule := (e: Entry) => ExplicitRule(cache, version, e);
    forall e | e in tail
      ensures e in summaries <==> rule(e).Some?
      ensures e in summaries ==> rule(e) == Some(summaries[e])
    {
      ReadAnswers(cache, shas, version, e);
    }
    assert Answers(summaries, tail, rule);
  }

  method ResolveByVersion(cache: Cache, recorded: map<Source, Option<int>>, effective: Option<Source> -> int,
      tail: seq<Entry>)
    returns (summaries: map<Entry, string>)
    ensures Answers(summaries, tail, e => Rule(cache, recorded, effective, e))
  {
    var known := ResolveRecorded(cache, recorded, tail);
    summaries := ResolveEffective(cache, effective, tail, known);
  }

  /** `_resolve_tail_summaries`: grouped by version, and for every tail chunk what its own rule
      says. Entries of different sources never share an answer, even with one hash. */
  method ResolveTailSummaries(cache: Cache, recorded: map<Source, Option<int>>, effective: Option<Source> -> int,
                              tail: seq<Entry>, explicit: Option<int>)
    returns (summaries: map<Entry, string>)
    ensures explicit.None? ==> Answers(summaries, tail, e => Rule(cache, recorded, effective, e))
    ensures explicit.Some? ==> Answers(summaries, tail, e => ExplicitRule(cache, explicit.value, e))
  {
    if tail == [] {
      summaries := map[];
    } else if explicit.Some? {
      summaries := ResolveExplicit(cache, tail, explicit.value);
    } else {
      summaries := ResolveByVersion(cache, recorded, effective, tail);
    }
  }

  // ---------------------------------------------------------------------------
  // The summary_tail mode
  // ---------------------------------------------------------------------------

  const SUMMARY_TAIL_HEAD := 2

  // A result's body, and the raw text it was indexed from; merged hits have none.
  datatype Chunk = Chunk(snippet: string, raw: Option<string>, source: Option<Source>)

  predicate InTail(c: Chunk, key: string -> Sha, e: Entry) {
    c.raw.Some? && c.raw.value != "" && e == Entry(key(c.raw.value), c.source)
  }

  function TailEntries(chunks: seq<Chunk>, key: string -> Sha): seq<Entry> {
    if |chunks| <= SUMMARY_TAIL_HEAD then []
    else
      var c := chunks[|chunks| - 1];
      TailEntries(chunks[..|chunks| - 1], key) +
      (if c.raw.Some? && c.raw.value != "" then [Entry(key(c.raw.value), c.source)] else [])
  }

  lemma {:induction false} TailEntriesAre(chunks: seq<Chunk>, key: string -> Sha, e: Entry)
    ensures e in TailEntries(chunks, key) <==>
            exists i :: SUMMARY_TAIL_HEAD <= i < |chunks| && InTail(chunks[i], key, e)
  {
    if |chunks| > SUMMARY_TAIL_HEAD {
      var front, last := chunks[..|chunks| - 1], chunks[|chunks| - 1];
      TailEntriesAre(front, key, e);
      assert e in TailEntries(chunks, key) <==> e in TailEntries(front, key) || InTail(last, key, e);
      if i :| SUMMARY_TAIL_HEAD <= i < |front| && InTail(front[i], key, e) {
        assert InTail(chunks[i], key, e);
      }
      if i :| SUMMARY_TAIL_HEAD <= i < |chunks| && InTail(chunks[i], key, e) {
        assert i < |front| ==> front[i] == chunks[i];
      }
      assert chunks[|chunks| - 1] == last;
    }
  }

  // The body of a tail chunk: its own summary if its rule gives a non-empty one, else its own text.
  function TailBody(c: Chunk, rule: Entry -> Option<string>, key: string -> Sha): string {
    if c.raw.Some? && c.raw.value != "" then
      var summary := rule(Entry(key(c.raw.value), c.source));
      if summary.Some? && summary.value != "" then summary.value else c.snippet
    else c.snippet
  }

  // The chunk's source has an id and is recorded at version `v`.
  predicate RecordedAt(recorded: map<Source, Option<int>>, c: Chunk, v: int) {
    c.source.Some? && c.source.value.id != "" && c.source.value in recorded && recorded[c.source.value] == Some(v)
  }

  /** The body of a tail chunk with an original text: its summary at the version its source is recorded
      at, where a rejection there leaves it as it is; only without an entry there, or without such a
      version, its summary at the effective version. A chunk without one stays as it is. */
  lemma BodyExactly(c: Chunk, key: string -> Sha, cache: Cache, recorded: map<Source, Option<int>>,
      effective: Option<Source> -> int)
    ensures
      var body := TailBody(c, e => Rule(cache, recorded, effective, e), key);
      && (c.raw.None? || c.raw.value == "" ==> body == c.snippet)
      && (c.raw.Some? && c.raw.value != "" ==>
            var sha, at := key(c.raw.value), (key(c.raw.value), effective(c.source));
            && (forall v :: RecordedAt(recorded, c, v) && (sha, v) in cache ==>
                  body == if cache[(sha, v)] == "" then c.snippet else cache[(sha, v)])
            && ((forall v :: RecordedAt(recorded, c, v) ==> (sha, v) !in cache) ==>
                  body == if at in cache && cache[at] != "" then cache[at] else c.snippet))
  {
    if c.raw.Some? && c.raw.value != "" {
      var rule := (e: Entry) => Rule(cache, recorded, effective, e);
      var e := Entry(key(c.raw.value), c.source);
      var version := RecordedOf(recorded, c.source);
      assert rule(e) == Rule(cache, recorded, effective, e);
      assert forall v :: RecordedAt(recorded, c, v) <==> version == Some(v);
      if version.Some? {
        assert RecordedAt(recorded, c, version.value);
      }
    }
  }

  /** With an explicit version: its summary at that version, whatever its source is recorded at. */
  lemma ExplicitBodyExactly(c: Chunk, key: string -> Sha, cache: Cache, version: int)
    ensures
      var body := TailBody(c, e => ExplicitRule(cache, version, e), key);
      && (c.raw.None? || c.raw.value == "" ==> body == c.snippet)
      && (c.raw.Some? && c.raw.value != "" ==>
            var at := (key(c.raw.value), version);
            body == if at in cache && cache[at] != "" then cache[at] else c.snippet)
  {
  }

  // No other text has the empty text's hash.
  ghost predicate EmptyIsAlone(key: string -> Sha) {
    forall text :: text != "" ==> key(text) != key("")
  }

  /** `_apply_response_mode` for "summary_tail", on the table the lookup built: every tail body is
      its own chunk's, and none becomes empty. */
  method ApplySummaryTail(chunks: seq<Chunk>, summaries: map<Entry, string>, key: string -> Sha,
                          ghost rule: Entry -> Option<string>)
    returns (bodies: seq<string>)
    requires EmptyIsAlone(key) && Answers(summaries, TailEntries(chunks, key), rule)
    ensures |bodies| == |chunks|
    ensures forall i :: 0 <= i < |chunks| ==>
      bodies[i] == if i < SUMMARY_TAIL_HEAD then chunks[i].snippet else TailBody(chunks[i], rule, key)
    ensures forall i :: 0 <= i < |chunks| && chunks[i].snippet != "" ==> bodies[i] != ""
  {
    bodies := [];
    for i := 0 to |chunks|
      invariant |bodies| == i
      invariant forall k :: 0 <= k < i ==>
        bodies[k] == if k < SUMMARY_TAIL_HEAD then chunks[k].snippet else TailBody(chunks[k], rule, key)
    {
      var c := chunks[i];
      var body := c.snippet;
      if i >= SUMMARY_TAIL_HEAD && c.raw.Some? {
        var e := Entry(key(c.raw.value), c.source);
        TailEntriesAre(chunks, key, e);
        assert c.raw.value != "" ==> InTail(chunks[i], key, e);
        if e in summaries && summaries[e] != "" {
          body := summaries[e];
        }
      }
      bodies := bodies + [body];
    }
  }

  /** The whole "summary_tail" path. When the cache cannot be read, every body stays as it is. */
  method SummaryTail(chunks: seq<Chunk>, key: string -> Sha, cache: Option<Cache>, recorded: map<Source, Option<int>>,
                     effective: Option<Source> -> int, explicit: Option<int>)
    returns (bodies: seq<string>)
    requires EmptyIsAlone(key)
    ensures |bodies| == |chunks|
    ensures forall i :: 0 <= i < |chunks| && chunks[i].snippet != "" ==> bodies[i] != ""
    ensures forall i :: 0 <= i < |chunks| ==>
      bodies[i] ==
        if i < SUMMARY_TAIL_HEAD || cache.None? then chunks[i].snippet
        else if explicit.Some? then TailBody(chunks[i], e => ExplicitRule(cache.value, explicit.value, e), key)
        else TailBody(chunks[i], e => Rule(cache.value, recorded, effective, e), key)
  {
    if cache.None? {
      bodies := seq(|chunks|, i requires 0 <= i < |chunks| => chunks[i].snippet);
      return;
    }
    var summaries := ResolveTailSummaries(cache.value, recorded, effective, TailEntries(chunks, key), explicit);
    if explicit.Some? {
      bodies := ApplySummaryTail(chunks, summaries, key, e => ExplicitRule(cache.value, explicit.value, e));
    } else {
      bodies := ApplySummaryTail(chunks, summaries, key, e => Rule(cache.value, recorded, effective, e));
    }
  }
}
