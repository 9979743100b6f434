/** Answering a request from a similar donor, and dropping index entries whose latents are gone. */
module Lookup {
  import opened Machine
  import opened Options
  import opened StepKeys
  import opened Approx

  datatype Hit = Hit(id: string, similarity: real, steps: seq<int>)

  /** Reranker scores, none when there is nothing to rerank with, or an exception. */
  datatype Scores = Scores(of: seq<real>) | NoScores | RerankRaises

  /** `tiers` are the items of the staircase table: a skip depth and the least score that allows it. */
  datatype Knobs = Knobs(rerank: bool, similarityThreshold: real, rerankThreshold: real, maxSkip: int,
                         staircase: bool, tiers: seq<(int, real)>)

  /** A request with the backends it meets; search and reranking are arbitrary functions, and `loads`
      says whether reading the latent works. */
  datatype Query = Query(prompt: string, hasVectors: bool, hasEncoder: bool, embeds: bool, loads: bool,
                         search: map<string, Entry> -> seq<Hit>, rerank: seq<Hit> -> Scores, knobs: Knobs)

  datatype Choice = Nothing | Failed | Chosen(hit: Hit, step: int, score: real)

  /** `Stale` is a miss that found an index entry without its latent. */
  datatype Found = Miss | Raises | Stale(id: string) | Resume(id: string, step: int, latent: Blob, score: real)

  // ------------------------------------------------------------------ which step to resume from

  /** The deepest tier whose score is reached. */
  function SelectK(k: Knobs, score: real): (r: Option<int>)
    ensures r.Some? ==> exists i :: 0 <= i < |k.tiers| && k.tiers[i].0 == r.value && score >= k.tiers[i].1
    ensures r.Some? ==> forall i :: 0 <= i < |k.tiers| && score >= k.tiers[i].1 ==> k.tiers[i].0 <= r.value
    ensures r.None? <==> !k.staircase || forall i :: 0 <= i < |k.tiers| ==> score < k.tiers[i].1
  {
    if k.staircase then Deepest(k.tiers, score) else None
  }

  function Deepest(tiers: seq<(int, real)>, score: real): (r: Option<int>)
    ensures r.Some? ==> exists i :: 0 <= i < |tiers| && tiers[i].0 == r.value && score >= tiers[i].1
    ensures r.Some? ==> forall i :: 0 <= i < |tiers| && score >= tiers[i].1 ==> tiers[i].0 <= r.value
    ensures r.None? <==> forall i :: 0 <= i < |tiers| ==> score < tiers[i].1
  {
    if tiers == [] then None
    else
      var front, last := Deepest(tiers[..|tiers| - 1], score), tiers[|tiers| - 1];
      assert tiers == tiers[..|tiers| - 1] + [last];
      if score < last.1 || (front.Some? && front.value >= last.0) then front else Some(last.0)
  }

  /** The configured limit, 5 when it is given as zero, lowered by the tier of a rerank score if there is one. */
  function Cap(k: Knobs, score: Option<real>): (cap: int)
    ensures forall s :: s <= cap <==> Permits(k, score, s)
  {
    var limit, tier := if k.maxSkip == 0 then 5 else k.maxSkip, if score.Some? then SelectK(k, score.value) else None;
    if tier.Some? && tier.value < limit then tier.value else limit
  }

  /** No step beyond the configured limit, nor, if the score reaches any tier, beyond all it reaches. */
  ghost predicate Permits(k: Knobs, score: Option<real>, s: int) {
    && (if k.maxSkip == 0 then s <= 5 else s <= k.maxSkip)
    && (k.staircase && score.Some? && (exists i :: 0 <= i < |k.tiers| && score.value >= k.tiers[i].1) ==>
          exists i :: 0 <= i < |k.tiers| && score.value >= k.tiers[i].1 && s <= k.tiers[i].0)
  }

  /** The largest saved step in `1..cap`, or 0. */
  function LargestStep(steps: seq<int>, cap: int): (r: int)
    ensures r == 0 || (r in steps && 0 < r <= cap)
    ensures forall s :: s in steps && 0 < s <= cap ==> s <= r
  {
    if steps == [] then 0
    else
      var front, last := LargestStep(steps[..|steps| - 1], cap), steps[|steps| - 1];
      assert steps == steps[..|steps| - 1] + [last];
      if 0 < last <= cap && last > front then last else front
  }

  // ------------------------------------------------------------------ which donor

  function ArgMax(s: seq<real>): (r: nat)
    requires s != []
    ensures r < |s| && (forall i :: 0 <= i < |s| ==> s[i] <= s[r]) && forall i :: 0 <= i < r ==> s[i] < s[r]
  {
    if |s| == 1 then 0
    else
      var front := ArgMax(s[..|s| - 1]);
      if s[|s| - 1] > s[front] then |s| - 1 else front
  }

  function Gate(k: Knobs, hit: Hit, score: real, threshold: real, reranked: bool): (c: Choice)
    ensures c.Chosen? <==> score >= threshold && exists s :: s in hit.steps && 0 < s <= Cap(k, if reranked then Some(score) else None)
    ensures c.Chosen? ==> c.hit == hit && c.score == score && c.step == LargestStep(hit.steps, Cap(k, if reranked then Some(score) else None)) > 0
    ensures !c.Failed?
  {
    var step := LargestStep(hit.steps, Cap(k, if reranked then Some(score) else None));
    if score < threshold || step <= 0 then Nothing else Chosen(hit, step, score)
  }

  function Choose(q: Query, hits: seq<Hit>): Choice {
    if hits == [] then Nothing
    else if !q.knobs.rerank then Gate(q.knobs, hits[0], hits[0].similarity, q.knobs.similarityThreshold, false)
    else
      match q.rerank(hits)
      case RerankRaises => Failed
      case NoScores => Gate(q.knobs, hits[0], hits[0].similarity, q.knobs.similarityThreshold, false)
      case Scores(of) =>
        if of == [] || |of| != |hits| then Failed
        else
          var best := ArgMax(of);
          Gate(q.knobs, hits[best], of[best], RerankThreshold(q.knobs), true)
  }

  ghost predicate Unranked(q: Query, hits: seq<Hit>) {
    !q.knobs.rerank || q.rerank(hits).NoScores?
  }

  ghost predicate Allowed(q: Query, hit: Hit, score: Option<real>) {
    exists s :: s in hit.steps && 0 < s && Permits(q.knobs, score, s)
  }

  /** Without rerank scores the most similar donor is taken if it is similar enough. */
  lemma {:induction false} TakesTheMostSimilar(q: Query, hits: seq<Hit>)
    requires hits != [] && Unranked(q, hits)
    ensures var c := Choose(q, hits);
      && !c.Failed? && (c.Chosen? <==> hits[0].similarity >= q.knobs.similarityThreshold && Allowed(q, hits[0], None))
      && (c.Chosen? ==> c.hit == hits[0] && c.score == hits[0].similarity)
  {
  }

  /** With them the first of the best scored donors is taken if it has an allowed step and its score reaches
      the configured threshold, which is 0.80 when it is given as zero; anything but one score for each
      donor is an error. */
  lemma {:induction false} TakesTheBestScored(q: Query, hits: seq<Hit>)
    requires hits != [] && !Unranked(q, hits)
    ensures var c, scores := Choose(q, hits), q.rerank(hits);
      && (c.Failed? <==> scores.RerankRaises? || |scores.of| != |hits|)
      && (c.Chosen? ==> exists i :: 0 <= i < |hits| && Best(scores.of, i) && c.hit == hits[i] && c.score == scores.of[i])
      && (!c.Failed? ==> forall i :: 0 <= i < |hits| && Best(scores.of, i) ==>
            (c.Chosen? <==>
               && (q.knobs.rerankThreshold != 0.0 ==> scores.of[i] >= q.knobs.rerankThreshold)
               && (q.knobs.rerankThreshold == 0.0 ==> scores.of[i] >= 0.80)
               && Allowed(q, hits[i], Some(scores.of[i]))))
  {
    var scores := q.rerank(hits);
    if scores.Scores? && |scores.of| == |hits| {
      var best := ArgMax(scores.of);
      assert Best(scores.of, best);
      assert forall i :: 0 <= i < |hits| && Best(scores.of, i) ==> i == best;
    }
  }

  ghost predicate Best(scores: seq<real>, i: nat) {
    i < |scores| && (forall j :: 0 <= j < |scores| ==> scores[j] <= scores[i]) && forall j :: 0 <= j < i ==> scores[j] < scores[i]
  }

  function RerankThreshold(k: Knobs): real {
    if k.rerankThreshold == 0.0 then 0.80 else k.rerankThreshold
  }

  /** Ids are stored without hyphens; a backend may hand them out with some. */
  function Normalize(id: string): (r: string)
    ensures '-' !in r && |r| <= |id| && (r == id <==> '-' !in id)
  {
    if id == [] then []
    else
      var front, last := Normalize(id[..|id| - 1]), id[|id| - 1];
      assert id == id[..|id| - 1] + [last];
      if last == '-' then front else front + [last]
  }

  // ------------------------------------------------------------------ one lookup

  ghost function ChoiceFor(st: Stores, q: Query): Choice {
    if q.prompt == [] || !q.hasVectors || !q.hasEncoder || !q.embeds then Nothing else Choose(q, q.search(st.vec))
  }

  ghost function Outcome(st: Stores, q: Query): Found {
    match ChoiceFor(st, q)
    case Nothing => Miss
    case Failed => Raises
    case Chosen(hit, step, score) =>
      var id := Normalize(hit.id);
      if !q.loads then Raises
      else if StepKey(id, step) in st.kv then Resume(id, step, st.kv[StepKey(id, step)], score) else Stale(id)
  }

  /** The stores after a lookup whose eviction calls end as given. */
  ghost function After(st: Stores, q: Query, deleteVector: Call, removeMeta: Call): Stores {
    match Outcome(st, q)
    case Stale(id) =>
      Stores(st.kv, if deleteVector.Clean? then st.vec else st.vec - {id}, if removeMeta.Clean? then st.meta else st.meta - {id})
    case _ => st
  }

  method LazyEvict(s: Strategy, id: string, deleteVector: Call, removeMeta: Call)
    modifies s
    ensures s.now == Stores(old(s.now.kv), if deleteVector.Clean? then old(s.now.vec) else old(s.now.vec) - {id},
                            if removeMeta.Clean? then old(s.now.meta) else old(s.now.meta) - {id})
  {
    var done := s.Apply(s.now.(vec := s.now.vec - {id}), deleteVector);
    done := s.Apply(s.now.(meta := s.now.meta - {id}), removeMeta);
  }

  method LookUp(s: Strategy, q: Query, deleteVector: Call, removeMeta: Call) returns (r: Found)
    modifies s
    ensures r == Outcome(old(s.now), q) && s.now == After(old(s.now), q, deleteVector, removeMeta)
  {
    if q.prompt == [] || !q.hasVectors || !q.hasEncoder || !q.embeds {
      return Miss;
    }
    var choice := Choose(q, q.search(s.now.vec));
    match choice {
      case Nothing => r := Miss;
      case Failed => r := Raises;
      case Chosen(hit, step, score) =>
        var id := Normalize(hit.id);
        var key := StepKey(id, step);
        if !q.loads {
          r := Raises;
        } else if key in s.now.kv {
          r := Resume(id, step, s.now.kv[key], score);
        } else {
          LazyEvict(s, id, deleteVector, removeMeta);
          r := Stale(id);
        }
    }
  }

  /** The donor to resume from: the most similar one if it is similar enough, or with rerank scores the first
      of the best scored if its score is high enough. */
  ghost predicate Picked(q: Query, hits: seq<Hit>, i: nat) {
    && i < |hits|
    && if Unranked(q, hits) then i == 0 && hits[0].similarity >= q.knobs.similarityThreshold
       else
         && q.rerank(hits).Scores? && |q.rerank(hits).of| == |hits| && Best(q.rerank(hits).of, i)
         && (if q.knobs.rerankThreshold == 0.0 then q.rerank(hits).of[i] >= 0.80 else q.rerank(hits).of[i] >= q.knobs.rerankThreshold)
  }

  /** The largest permitted step the donor saved. */
  ghost predicate LastPermitted(k: Knobs, score: Option<real>, steps: seq<int>, s: int) {
    s in steps && 0 < s && Permits(k, score, s) && forall t :: t in steps && Permits(k, score, t) ==> t <= s
  }

  ghost function ScoreOf(q: Query, hits: seq<Hit>, i: nat): Option<real> {
    if !Unranked(q, hits) && q.rerank(hits).Scores? && i < |q.rerank(hits).of| then Some(q.rerank(hits).of[i]) else None
  }

  ghost predicate ResumesAt(q: Query, hits: seq<Hit>, i: nat, s: int) {
    Picked(q, hits, i) && LastPermitted(q.knobs, ScoreOf(q, hits, i), hits[i].steps, s)
  }

  ghost predicate RerankFails(q: Query, hits: seq<Hit>) {
    !Unranked(q, hits) && (q.rerank(hits).RerankRaises? || |q.rerank(hits).of| != |hits|)
  }

  lemma {:induction false} GateIff(k: Knobs, hit: Hit, score: real, threshold: real, reranked: bool)
    ensures var c, at := Gate(k, hit, score, threshold, reranked), if reranked then Some(score) else None;
      && (c.Chosen? ==> LastPermitted(k, at, hit.steps, c.step))
      && forall s :: score >= threshold && LastPermitted(k, at, hit.steps, s) ==> c.Chosen? && c.step == s
  {
    var at := if reranked then Some(score) else None;
    forall s | LastPermitted(k, at, hit.steps, s) ensures LargestStep(hit.steps, Cap(k, at)) == s {}
  }

  lemma {:induction false} ChoiceIff(q: Query, hits: seq<Hit>)
    requires hits != []
    ensures var c := Choose(q, hits);
      && (c.Failed? <==> RerankFails(q, hits))
      && (c.Chosen? ==> exists i: nat :: ResumesAt(q, hits, i, c.step) && c.hit == hits[i])
      && forall i: nat, s :: ResumesAt(q, hits, i, s) ==> c.Chosen? && c.hit == hits[i] && c.step == s
  {
    var c := Choose(q, hits);
    if Unranked(q, hits) {
      GateIff(q.knobs, hits[0], hits[0].similarity, q.knobs.similarityThreshold, false);
      if c.Chosen? { assert ResumesAt(q, hits, 0, c.step); }
    } else if !RerankFails(q, hits) {
      var of := q.rerank(hits).of;
      var best := ArgMax(of);
      GateIff(q.knobs, hits[best], of[best], RerankThreshold(q.knobs), true);
      assert forall i: nat :: Best(of, i) ==> i == best;
      if c.Chosen? { assert ResumesAt(q, hits, best, c.step); }
    }
  }

  /** A request with all it needs raises exactly when the reranker fails it or its latent cannot be read,
      resumes exactly when the latent of the largest permitted step of the donor is there, and finds the
      entry stale when it is not; any other request misses. */
  lemma {:induction false} AnswersIff(st: Stores, q: Query)
    ensures var r, hits, asks := Outcome(st, q), q.search(st.vec), q.prompt != [] && q.hasVectors && q.hasEncoder && q.embeds;
      && (r.Resume? <==> asks && q.loads && exists i: nat, s :: ResumesAt(q, hits, i, s) && StepKey(Normalize(hits[i].id), s) in st.kv)
      && (r.Stale? <==> asks && q.loads && exists i: nat, s :: ResumesAt(q, hits, i, s) && StepKey(Normalize(hits[i].id), s) !in st.kv)
      && (r.Raises? <==> asks && hits != [] && (RerankFails(q, hits) || (!q.loads && exists i: nat, s :: ResumesAt(q, hits, i, s))))
  {
    hide StepKey;
    var hits := q.search(st.vec);
    if hits != [] { ChoiceIff(q, hits); }
  }

  // ------------------------------------------------------------------ a saved donor is served

  lemma {:induction false} LatentAt(kv: map<string, Blob>, id: string, steps: seq<int>, latents: Latents, s: int)
    requires Provided(steps, latents) && s in steps
    ensures var r := WithLatents(kv, id, steps, latents); HasLatent(latents, s) && StepKey(id, s) in r && r[StepKey(id, s)] == LatentOf(latents, s)
  {
    hide StepKey;
    var front, last := steps[..|steps| - 1], steps[|steps| - 1];
    assert steps == front + [last];
    if s != last {
      LatentAt(kv, id, front, latents, s);
      StepKeyInjective(id, s, id, last);
    }
  }

  lemma {:induction false} PlainId(id: string)
    requires HexId(id)
    ensures Normalize(id) == id
  {
    assert forall i :: 0 <= i < |id| ==> id[i] != '-';
  }

  /** Saving, then asking: a request that picks the donor just saved gets the very latent that was saved for the
      step it resumes at. */
  lemma {:induction false} SavedIsServed(st: Stores, env: Env, req: Request, id: string, q: Query, i: nat, s: int)
    requires HexId(id) && Fresh(st, id) && Accepts(env, req) && SoundSearch(q)
    requires q.prompt != [] && q.hasVectors && q.hasEncoder && q.embeds && q.loads
    requires var hits := q.search(Aftermath(st, env, req, id).vec); ResumesAt(q, hits, i, s) && hits[i].id == id
    ensures var r := Outcome(Aftermath(st, env, req, id), q); r.Resume? && r.id == id && r.step == s && Some(r.latent) == req.latents[s]
  {
    hide StepKey;
    var after, steps := Aftermath(st, env, req, id), ValidSteps(req.steps, req.latents);
    AcceptedIsComplete(st, env, req, id);
    ChoiceIff(q, q.search(after.vec));
    PlainId(id);
    LatentAt(st.kv, id, steps, req.latents, s);
  }

  const DONOR := "0123456789abcdef0123456789abcdef"

  lemma {:induction false} DonorIsPicked(v: Embedding)
    ensures HexId(DONOR)
    ensures var q, hits := AskFor(DONOR, 1), [Hit(DONOR, 1.0, [1])];
      && q.search(map[DONOR := Entry(v, "p", [1])]) == hits && ResumesAt(q, hits, 0, 1) && Choose(q, hits) == Chosen(hits[0], 1, 1.0)
  {
    var q, hits := AskFor(DONOR, 1), [Hit(DONOR, 1.0, [1])];
    assert LastPermitted(q.knobs, None, [1], 1);
    ChoiceIff(q, hits);
  }

  /** One donor with one step, saved into empty stores and asked for. */
  lemma {:induction false} OneDonor(v: Embedding, blob: Blob)
    ensures var save := SaveOp(DONOR, Request("p", map[1 := Some(blob)], [1], true), EnvWith(v, Ok, Ok, Ok, Ok));
      Outcome(History([save]), AskFor(DONOR, 1)) == Resume(DONOR, 1, blob, 1.0)
  {
    hide StepKey, ResumesAt, Choose, HexId, AskFor;
    var req, env, none := Request("p", map[1 := Some(blob)], [1], true), EnvWith(v, Ok, Ok, Ok, Ok), Stores(map[], map[], map[]);
    OneStep(req, blob);
    FoldCons((st, op) => OpNext(st, op), none, SaveOp(DONOR, req, env), []);
    assert [SaveOp(DONOR, req, env)] + [] == [SaveOp(DONOR, req, env)];
    AcceptedIsComplete(none, env, req, DONOR);
    DonorIsPicked(v);
    AskForIsSound(DONOR, 1);
    SavedIsServed(none, env, req, DONOR, AskFor(DONOR, 1), 0, 1);
  }

  lemma {:induction false} AskForIsSound(id: string, s: int)
    ensures var q := AskFor(id, s); SoundSearch(q) && q.prompt != [] && q.hasVectors && q.hasEncoder && q.embeds && q.loads
  {
  }

  // ------------------------------------------------------------------ healing

  /** Search only returns what the index holds. */
  ghost predicate SoundSearch(q: Query) {
    forall vec: map<string, Entry>, i :: 0 <= i < |q.search(vec)| ==>
      q.search(vec)[i].id in vec && q.search(vec)[i].steps == vec[q.search(vec)[i].id].steps
  }

  /** How deep the chosen donor may be resumed: a rerank score can lower the configured limit. */
  ghost function CapFor(q: Query, hits: seq<Hit>): int
    requires Choose(q, hits).Chosen?
  {
    Cap(q.knobs, if q.knobs.rerank && q.rerank(hits).Scores? then Some(Choose(q, hits).score) else None)
  }

  lemma {:induction false} ChoiceIsAHit(q: Query, hits: seq<Hit>)
    requires Choose(q, hits).Chosen?
    ensures var c := Choose(q, hits);
      (exists i :: 0 <= i < |hits| && hits[i] == c.hit) && c.step == LargestStep(c.hit.steps, CapFor(q, hits)) && c.step > 0
  {
  }

  /** A hit hands out the stored latent of the largest step its donor saved within the cap. */
  lemma {:induction false} HitIsTheDeepestAllowed(st: Stores, q: Query)
    requires SoundSearch(q) && Outcome(st, q).Resume?
    ensures var r, hit, cap := Outcome(st, q), ChoiceFor(st, q).hit, CapFor(q, q.search(st.vec));
      && hit.id in st.vec && r.id == Normalize(hit.id)
      && StepKey(r.id, r.step) in st.kv && r.latent == st.kv[StepKey(r.id, r.step)]
      && r.step in st.vec[hit.id].steps && 0 < r.step <= cap && forall s :: s in st.vec[hit.id].steps && 0 < s <= cap ==> s <= r.step
  {
    var hits, c := q.search(st.vec), ChoiceFor(st, q);
    ChoiceIsAHit(q, hits);
    var i :| 0 <= i < |hits| && hits[i] == c.hit;
  }

  /** A step the entry advertises, that lookups may ask for, and that nobody can serve. */
  ghost predicate Lost(st: Stores, id: string, s: int)
    requires id in st.vec
  {
    s in st.vec[id].steps && s > 0 && StepKey(Normalize(id), s) !in st.kv
  }

  ghost function StaleIds(st: Stores): set<string> {
    set id | id in st.vec && exists s :: Lost(st, id, s)
  }

  ghost predicate Normalized(st: Stores) {
    forall id :: id in st.vec ==> '-' !in id
  }

  ghost predicate StaleAreNormalized(st: Stores) {
    forall id :: id in StaleIds(st) ==> '-' !in id
  }

  /** A stale match drops the entry it matched, exactly when that entry's id has no hyphen. */
  lemma {:induction false} StaleEvictsIff(st: Stores, q: Query)
    requires SoundSearch(q) && Outcome(st, q).Stale?
    ensures var id := ChoiceFor(st, q).hit.id;
      && id in StaleIds(st) && (id !in After(st, q, Ok, Ok).vec <==> '-' !in id)
  {
    var hits, c := q.search(st.vec), ChoiceFor(st, q);
    ChoiceIsAHit(q, hits);
    var i :| 0 <= i < |hits| && hits[i] == c.hit;
    assert Lost(st, c.hit.id, c.step);
  }

  lemma {:induction false} StaleShrinks(st: Stores, q: Query)
    requires SoundSearch(q) && StaleAreNormalized(st) && Outcome(st, q).Stale?
    ensures var next := After(st, q, Ok, Ok);
      StaleIds(next) <= StaleIds(st) && StaleAreNormalized(next) && |StaleIds(next)| == |StaleIds(st)| - 1
  {
    StaleEvictsIff(st, q);
    var id, next := ChoiceFor(st, q).hit.id, After(st, q, Ok, Ok);
    assert next.vec == st.vec - {id} && next.kv == st.kv;
    StaleWithout(st, next, id);
  }

  lemma {:induction false} StaleWithout(st: Stores, next: Stores, id: string)
    requires next.vec == st.vec - {id} && next.kv == st.kv
    ensures StaleIds(next) == StaleIds(st) - {id}
  {
    forall x | x in next.vec ensures x in StaleIds(next) <==> x in StaleIds(st) {
      assert forall s :: Lost(next, x, s) <==> Lost(st, x, s);
    }
  }

  /** Asking once more, with evictions that work. */
  ghost function Again(q: Query): Stores -> Stores {
    st => After(st, q, Ok, Ok)
  }

  /** The stores after `n` lookups in a row. */
  ghost function Retry(st: Stores, q: Query, n: nat): Stores {
    Iterate(Again(q), st, n)
  }

  ghost predicate SettlesSoon(st: Stores, q: Query) {
    exists n: nat :: n <= |StaleIds(st)| && !Outcome(Retry(st, q, n), q).Stale?
  }

  /** Whatever latents were lost, asking again comes to a true hit or a genuine miss within as many
      tries as there are stale entries. */
  lemma {:induction false} RetriesSettle(st: Stores, q: Query)
    requires SoundSearch(q) && StaleAreNormalized(st)
    ensures SettlesSoon(st, q)
  {
    forall x | StaleAreNormalized(x) && Outcome(x, q).Stale? ensures StaleAreNormalized(Again(q)(x)) && |StaleIds(Again(q)(x))| < |StaleIds(x)| {
      StaleShrinks(x, q);
    }
    var n := Settles(Again(q), x => Outcome(x, q).Stale?, x => StaleAreNormalized(x), x => |StaleIds(x)|, st);
    assert !Outcome(Retry(st, q, n), q).Stale?;
  }

  // ------------------------------------------------------------------ every index that saves and lookups build

  /** What happens to the stores: a save under a generated id that is new, a lookup, a loss of latents, or of
      index entries, behind the cache's back. Backend calls end as they like. */
  datatype Op =
    | SaveOp(id: string, req: Request, env: Env)
    | LookupOp(q: Query, deleteVector: Call, removeMeta: Call)
    | LoseLatents(keys: set<string>)
    | LoseEntries(ids: set<string>)

  ghost function OpNext(st: Stores, op: Op): Stores {
    match op
    case SaveOp(id, req, env) => if HexId(id) && Fresh(st, id) then Aftermath(st, env, req, id) else st
    case LookupOp(q, deleteVector, removeMeta) => After(st, q, deleteVector, removeMeta)
    case LoseLatents(keys) => st.(kv := st.kv - keys)
    case LoseEntries(ids) => st.(vec := st.vec - ids)
  }

  /** The stores after `ops`, which began empty. */
  ghost function History(ops: seq<Op>): Stores {
    Fold((st, op) => OpNext(st, op), Stores(map[], map[], map[]), ops)
  }

  lemma {:induction false} OpKeepsNormalized(st: Stores, op: Op)
    requires Normalized(st)
    ensures Normalized(OpNext(st, op))
  {
    if op.SaveOp? && HexId(op.id) && Fresh(st, op.id) {
      hide Aftermath;
      AftermathTouches(st, op.env, op.req, op.id);
    }
  }

  lemma {:induction false} HistoryIsNormalized(ops: seq<Op>)
    ensures Normalized(History(ops))
  {
    forall st, op | Normalized(st) ensures Normalized(OpNext(st, op)) { OpKeepsNormalized(st, op); }
    FoldKeeps((st, op) => OpNext(st, op), st => Normalized(st), Stores(map[], map[], map[]), ops);
  }

  /** So after any such history repeated lookups settle. */
  lemma {:induction false} BuiltIndexSettles(ops: seq<Op>, q: Query)
    requires SoundSearch(q)
    ensures SettlesSoon(History(ops), q)
  {
    HistoryIsNormalized(ops);
    RetriesSettle(History(ops), q);
  }

  // ------------------------------------------------------------------ entries of other writers

  /** Lookups never drop an entry whose stored id has a hyphen, nor bring its latents back. */
  lemma {:induction false} HyphenNeverHeals(st: Stores, q: Query, n: nat, id: string)
    requires '-' in id && id in st.vec
    ensures var after := Retry(st, q, n);
      id in after.vec && after.vec[id] == st.vec[id] && after.kv == st.kv && (id in StaleIds(st) ==> id in StaleIds(after))
    decreases n
  {
    var after := Retry(st, q, n);
    if n > 0 {
      var next := Again(q)(st);
      assert Outcome(st, q).Stale? ==> Outcome(st, q).id != id;
      HyphenNeverHeals(next, q, n - 1, id);
    }
    if id in StaleIds(st) {
      var s :| Lost(st, id, s);
      assert Lost(after, id, s);
    }
  }

  /** A request that always finds `id` most similar and may resume at step `s`. */
  ghost function AskFor(id: string, s: int): Query {
    Query("p", true, true, true, true, (vec: map<string, Entry>) => if id in vec then [Hit(id, 1.0, vec[id].steps)] else [],
          _ => NoScores, Knobs(false, 0.0, 0.0, s, false, []))
  }

  lemma {:induction false} AskForIsStale(st: Stores, id: string, s: int)
    requires id in st.vec && Lost(st, id, s)
    ensures SoundSearch(AskFor(id, s)) && Outcome(st, AskFor(id, s)) == Stale(Normalize(id))
  {
    var q, hit := AskFor(id, s), Hit(id, 1.0, st.vec[id].steps);
    assert q.search(st.vec) == [hit];
    assert Cap(q.knobs, None) == s && LargestStep(hit.steps, s) == s;
    assert Choose(q, [hit]) == Chosen(hit, s, 1.0);
  }

  lemma {:induction false} AskForNeverSettles(st: Stores, id: string, s: int, n: nat)
    requires '-' in id && id in st.vec && Lost(st, id, s)
    ensures Outcome(Retry(st, AskFor(id, s), n), AskFor(id, s)).Stale?
  {
    HyphenNeverHeals(st, AskFor(id, s), n, id);
    AskForIsStale(Retry(st, AskFor(id, s), n), id, s);
  }

  /** On an index that takes ids as they are, exactly when every request settles: no stale entry was
      stored under an id with a hyphen. */
  lemma {:induction false} HealsIff(st: Stores)
    ensures (forall q :: SoundSearch(q) ==> SettlesSoon(st, q)) <==> StaleAreNormalized(st)
  {
    if StaleAreNormalized(st) {
      forall q | SoundSearch(q) ensures SettlesSoon(st, q) { RetriesSettle(st, q); }
    } else {
      var id :| id in StaleIds(st) && '-' in id;
      var s :| Lost(st, id, s);
      AskForIsStale(st, id, s);
      forall n: nat ensures Outcome(Retry(st, AskFor(id, s), n), AskFor(id, s)).Stale? { AskForNeverSettles(st, id, s, n); }
      assert !SettlesSoon(st, AskFor(id, s));
    }
  }

  /** Such an entry: one step saved under `a-b` by somebody else, its latent gone. */
  lemma {:induction false} ForeignEntryStays(v: Embedding, n: nat)
    ensures var st, q := Stores(map[], map["a-b" := Entry(v, "p", [1])], map[]), AskFor("a-b", 1);
      SoundSearch(q) && Outcome(st, q) == Stale("ab") && Outcome(Retry(st, q, n), q) == Stale("ab") && "a-b" in Retry(st, q, n).vec
  {
    var st, q := Stores(map[], map["a-b" := Entry(v, "p", [1])], map[]), AskFor("a-b", 1);
    assert "a-b"[..2] == "a-" && "a-"[..1] == "a" && "a"[..0] == "";
    assert Normalize("a-b") == "ab";
    assert Lost(st, "a-b", 1);
    HyphenNeverHeals(st, q, n, "a-b");
    AskForIsStale(st, "a-b", 1);
    AskForIsStale(Retry(st, q, n), "a-b", 1);
  }

  // ------------------------------------------------------------------ indexes that take both spellings for one

  /** A stale match on an index for which an id and its shortened form are one point. */
  ghost function AfterEither(st: Stores, q: Query): Stores {
    match Outcome(st, q)
    case Stale(id) => st.(vec := map x | x in st.vec && Normalize(x) != id :: st.vec[x], meta := st.meta - {id})
    case _ => st
  }

  ghost function AgainEither(q: Query): Stores -> Stores {
    st => AfterEither(st, q)
  }

  /** There the matched entry goes whatever its id, */
  lemma {:induction false} EitherShrinks(st: Stores, q: Query)
    requires SoundSearch(q) && Outcome(st, q).Stale?
    ensures var next := AfterEither(st, q); ChoiceFor(st, q).hit.id !in next.vec && |StaleIds(next)| < |StaleIds(st)|
  {
    StaleEvictsIff(st, q);
    var id, next := ChoiceFor(st, q).hit.id, AfterEither(st, q);
    forall x | x in StaleIds(next) ensures x in StaleIds(st) && x != id {
      var s :| Lost(next, x, s);
      assert Lost(st, x, s);
    }
    assert StaleIds(next) <= StaleIds(st) - {id};
    assert StaleIds(st) == (StaleIds(st) - {id}) + {id};
    SubsetSize(StaleIds(next), StaleIds(st) - {id});
  }

  /** so every request settles, whoever wrote the entries. */
  lemma {:induction false} EitherSettles(st: Stores, q: Query)
    requires SoundSearch(q)
    ensures exists n: nat :: n <= |StaleIds(st)| && !Outcome(Iterate(AgainEither(q), st, n), q).Stale?
  {
    forall x | Outcome(x, q).Stale? ensures |StaleIds(AgainEither(q)(x))| < |StaleIds(x)| {
      EitherShrinks(x, q);
    }
    var n := Settles(AgainEither(q), x => Outcome(x, q).Stale?, x => true, x => |StaleIds(x)|, st);
    assert !Outcome(Iterate(AgainEither(q), st, n), q).Stale?;
  }
}
