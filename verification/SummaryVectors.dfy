/**
  From a batch of chunks to the summary vectors of its rows: the cache lookup with its pending
  list, the embedding of the non-empty summaries only, and the rows whose summary failed.
*/
module SummaryVectors {
  import opened Options

  type Embedding = seq<int>

  datatype Strategy = Cached | Generated | Rejected | Error

  datatype Outcome = Outcome(summary: Option<string>, strategy: Strategy)

  // Python's truth value of an optional text.
  predicate Truthy(s: Option<string>) { s.Some? && s.value != "" }

  // The outcome of one chunk: a cache hit wins, and the cached empty text is a rejection.
  function OutcomeAt(keys: seq<string>, cached: map<string, string>, generate: nat -> Outcome, i: nat): Outcome
    requires i < |keys|
  {
    if keys[i] !in cached then generate(i)
    else if cached[keys[i]] == "" then Outcome(None, Rejected)
    else Outcome(Some(cached[keys[i]]), Cached)
  }

  /** `_summaries_for_chunks`: `generate(i)` is what the model call for chunk `i` yields. */
  method SummariesForChunks(keys: seq<string>, cached: map<string, string>, generate: nat -> Outcome)
    returns (out: seq<Outcome>)
    ensures |out| == |keys|
    ensures forall i :: 0 <= i < |keys| ==> out[i] == OutcomeAt(keys, cached, generate, i)
  {
    out := seq(|keys|, _ => Outcome(None, Error));
    var pending: seq<nat> := [];
    for i := 0 to |keys|
      invariant |out| == |keys|
      invariant forall k :: 0 <= k < i && keys[k] in cached ==> out[k] == OutcomeAt(keys, cached, generate, k)
      invariant forall k :: 0 <= k < i ==> (k in pending <==> keys[k] !in cached)
      invariant forall k :: k in pending ==> k < i
    {
      if keys[i] in cached {
        var summary := cached[keys[i]];
        out := out[i := if summary != "" then Outcome(Some(summary), Cached) else Outcome(None, Rejected)];
      } else {
        pending := pending + [i];
      }
    }
    var results := seq(|pending|, k requires 0 <= k < |pending| => (pending[k], generate(pending[k])));
    for k := 0 to |results|
      invariant |out| == |keys|
      invariant forall i :: 0 <= i < |keys| && keys[i] in cached ==> out[i] == OutcomeAt(keys, cached, generate, i)
      invariant forall i :: 0 <= i < |keys| && i in pending[..k] ==> out[i] == OutcomeAt(keys, cached, generate, i)
    {
      assert pending[k] in pending;
      out := out[results[k].0 := results[k].1];
      assert pending[..k + 1] == pending[..k] + [pending[k]];
    }
    assert pending[..|pending|] == pending;
  }

  // The texts sent to the embedder: the truthy summaries, in order.
  function Compress(summaries: seq<Option<string>>): (r: seq<string>)
  {
    if summaries == [] then []
    else Compress(summaries[..|summaries| - 1]) +
         (if Truthy(summaries[|summaries| - 1]) then [summaries[|summaries| - 1].value] else [])
  }

  // The truthy summaries before position `i` are as many as the embeddings consumed by then.
  lemma {:induction false} CompressAt(summaries: seq<Option<string>>, i: nat)
    requires i < |summaries|
    ensures Compress(summaries[..i]) <= Compress(summaries)
    ensures Truthy(summaries[i]) ==>
      |Compress(summaries[..i])| < |Compress(summaries)| &&
      Compress(summaries)[|Compress(summaries[..i])|] == summaries[i].value
  {
    var front := summaries[..|summaries| - 1];
    if i < |front| {
      CompressAt(front, i);
      assert front[..i] == summaries[..i];
    }
  }

  // The vector of one row: a failed summary keeps the vector the row has.
  function VectorAt(o: Outcome, had: Option<Embedding>, embed: string -> Embedding): Option<Embedding> {
    if o.strategy.Error? then had
    else if Truthy(o.summary) then Some(embed(o.summary.value))
    else None
  }

  // The vector of the summary the model gives a text, or none if it rejects the text.
  function Expected(words: (string, int) -> string, embed: string -> Embedding, text: string,
      v: int): Option<Embedding> {
    if words(text, v) == "" then None else Some(embed(words(text, v)))
  }

  // What a call for one text may yield: its summary, its rejection, or an error.
  predicate Yields(words: (string, int) -> string, text: string, v: int, o: Outcome) {
    || o == Outcome(None, Error)
    || (words(text, v) == "" && o == Outcome(None, Rejected))
    || (words(text, v) != "" && o == Outcome(Some(words(text, v)), Generated))
  }

  /** A row gets the vector of its own text's summary, whether that comes from the cache, where a
      rejection is the empty text, or from the model. It keeps the vector it has exactly if the text
      is not in the cache and the call failed. */
  lemma RowGetsItsVector(
    words: (string, int) -> string, embed: string -> Embedding, v: int, keys: seq<string>,
    cached: map<string, string>, generate: nat -> Outcome, i: nat, had: Option<Embedding>)
    requires i < |keys| && Yields(words, keys[i], v, generate(i))
    requires keys[i] in cached ==> cached[keys[i]] == words(keys[i], v)
    ensures var o := OutcomeAt(keys, cached, generate, i);
            && (o.strategy.Error? <==> keys[i] !in cached && generate(i).strategy.Error?)
            && VectorAt(o, had, embed) == if o.strategy.Error? then had else Expected(words, embed, keys[i], v)
  {
  }

  function Errors(outcomes: seq<Outcome>): nat {
    if outcomes == [] then 0
    else Errors(outcomes[..|outcomes| - 1]) + (if outcomes[|outcomes| - 1].strategy.Error? then 1 else 0)
  }

  lemma {:induction false} NoneOrAllFailed(outcomes: seq<Outcome>)
    ensures Errors(outcomes) <= |outcomes|
    ensures Errors(outcomes) == 0 <==> forall i :: 0 <= i < |outcomes| ==> !outcomes[i].strategy.Error?
    ensures Errors(outcomes) == |outcomes| <==> forall i :: 0 <= i < |outcomes| ==> outcomes[i].strategy.Error?
  {
    if outcomes != [] {
      NoneOrAllFailed(outcomes[..|outcomes| - 1]);
    }
  }

  /** The vectors of a batch. Only the truthy summaries reach the embedder, and an iterator
      spreads its answers over the rows again. */
  method BatchVectors(outcomes: seq<Outcome>, had: seq<Option<Embedding>>, embed: string -> Embedding)
    returns (vectors: seq<Option<Embedding>>, errors: nat)
    requires |had| == |outcomes|
    ensures |vectors| == |outcomes|
    ensures forall i :: 0 <= i < |outcomes| ==> vectors[i] == VectorAt(outcomes[i], had[i], embed)
    ensures errors == Errors(outcomes)
  {
    var summaries := seq(|outcomes|, i requires 0 <= i < |outcomes| => outcomes[i].summary);
    var toEmbed := Compress(summaries);
    if toEmbed != [] {
      var embs := seq(|toEmbed|, i requires 0 <= i < |toEmbed| => embed(toEmbed[i]));
      vectors := ExpandVectors(summaries, embs);
      forall i | 0 <= i < |summaries| && Truthy(summaries[i])
        ensures vectors[i] == Some(embed(summaries[i].value))
      {
        CompressAt(summaries, i);
      }
    } else {
      vectors := seq(|summaries|, _ => None);
      forall i | 0 <= i < |summaries|
        ensures !Truthy(summaries[i])
      {
        CompressAt(summaries, i);
      }
    }
    assert forall i :: 0 <= i < |outcomes| ==>
      vectors[i] == if Truthy(summaries[i]) then Some(embed(summaries[i].value)) else None;
    vectors, errors := KeepFailed(outcomes, had, vectors);
  }

  // A row whose summary failed keeps its vector, and is counted.
  method KeepFailed(outcomes: seq<Outcome>, had: seq<Option<Embedding>>, spread: seq<Option<Embedding>>)
    returns (vectors: seq<Option<Embedding>>, errors: nat)
    requires |had| == |outcomes| == |spread|
    ensures |vectors| == |outcomes|
    ensures forall i :: 0 <= i < |outcomes| ==> vectors[i] == if outcomes[i].strategy.Error? then had[i] else spread[i]
    ensures errors == Errors(outcomes)
  {
    vectors, errors := spread, 0;
    for i := 0 to |outcomes|
      invariant |vectors| == |outcomes|
      invariant forall k :: 0 <= k < i ==> vectors[k] == if outcomes[k].strategy.Error? then had[k] else spread[k]
      invariant forall k :: i <= k < |outcomes| ==> vectors[k] == spread[k]
      invariant errors == Errors(outcomes[..i])
    {
      assert outcomes[..i + 1][..i] == outcomes[..i];
      if outcomes[i].strategy.Error? {
        errors := errors + 1;
        vectors := vectors[i := had[i]];
      }
    }
    assert outcomes[..|outcomes|] == outcomes;
  }

  // The iterator over the embeddings never runs dry, and each row gets the one of its summary.
  method ExpandVectors(summaries: seq<Option<string>>, embs: seq<Embedding>) returns (vectors: seq<Option<Embedding>>)
    requires |embs| == |Compress(summaries)|
    ensures |vectors| == |summaries|
    ensures forall i :: 0 <= i < |summaries| ==>
      if Truthy(summaries[i]) then
        |Compress(summaries[..i])| < |embs| && vectors[i] == Some(embs[|Compress(summaries[..i])|])
      else vectors[i] == None
  {
    vectors := [];
    var next := 0;
    for i := 0 to |summaries|
      invariant |vectors| == i
      invariant next == |Compress(summaries[..i])|
      invariant forall k :: 0 <= k < i ==>
        if Truthy(summaries[k]) then
          |Compress(summaries[..k])| < |embs| && vectors[k] == Some(embs[|Compress(summaries[..k])|])
        else vectors[k] == None
    {
      CompressAt(summaries, i);
      assert summaries[..i + 1][..i] == summaries[..i];
      if Truthy(summaries[i]) {
        vectors := vectors + [Some(embs[next])];
        next := next + 1;
      } else {
        vectors := vectors + [None];
      }
    }
  }
}
