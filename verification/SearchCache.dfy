/**
 The cached search pipeline against the pipeline without a cache.

 Values record how they were computed: `Normalized(raw, rate)` is what normalization yields for that
 response and rate, `Scored(...)` what scoring yields for those inputs.  Any real pipeline is an image
 of this one.  Cache keys are digests of their fields, here injective constructors.
 */
module SearchCache {
  import opened Wrappers

  datatype LanguageModel = LanguageModel(url: string, model: string, prompt: string, temperature: int, maxTokens: int)

  datatype Marketplace = Marketplace(endpoint: string, domain: string, language: string, postalCode: string, limit: int)

  datatype Weights = Weights(title: int, attribute: int, price: int)

  datatype TermWeights = TermWeights(required: int, color: int, feature: int, preferred: int, related: int)

  datatype Settings = Settings(
    cacheDir: string, enableCache: bool, attributesTtl: int, rawTtl: int, languageModel: LanguageModel,
    marketplace: Marketplace, rate: int, weights: Weights, terms: TermWeights)

  datatype Attributes = Attributes(text: string)

  datatype Raw = Raw(text: string)

  datatype Products = Normalized(raw: Raw, rate: int)

  datatype Scores = Scored(attributes: Attributes, products: Products, weights: Weights, terms: TermWeights)

  datatype Key =
    | AttributesKey(scope: string, input: string, languageModel: LanguageModel)
    | RawKey(scope: string, query: string, marketplace: Marketplace)
    | NormalizedKey(scope: string, raw: Raw, rate: int)
    | ScoredKey(attributes: Attributes, normalized: Key, weights: Weights, terms: TermWeights)

  /** The key says which of the four namespaces a file is in. */
  datatype Path = Path(dir: string, key: Key)

  datatype Content =
    | AttributesFile(attributes: Attributes)
    | RawFile(raw: Raw)
    | ProductsFile(products: Products)
    | ScoresFile(scores: Scores)
    | Unusable

  datatype File = File(content: Content, modified: int)

  /** A call to the language model or the marketplace that produced something. */
  datatype Call =
    | ModelCall(key: Key, time: int, attributes: Attributes)
    | MarketCall(key: Key, time: int, raw: Raw)

  // ---------------------------------------------------------------- the TTL store

  /** The files after one of them became unreadable or disappeared. */
  function Damaged(files: map<Path, File>, path: Path, remove: bool): map<Path, File> {
    if path !in files then files
    else if remove then files - {path}
    else files[path := File(Unusable, files[path].modified)]
  }

  class JsonCacheRepository {
    var files: map<Path, File>

    constructor ()
      ensures files == map[]
    {
      files := map[];
    }

    /** The file at a path, unless it is missing or older than it may be. */
    function FreshFile(path: Path, now: int, maxAge: Option<int>): Option<File>
      reads this
    {
      if path !in files then None
      else if maxAge.Some? && now - files[path].modified > maxAge.value then None
      else Some(files[path])
    }

    /** The content of a fresh file; one that cannot be read yields nothing. */
    method Load(path: Path, now: int, maxAge: Option<int>) returns (content: Option<Content>)
      ensures content.Some? <==>
                FreshFile(path, now, maxAge).Some? && !FreshFile(path, now, maxAge).value.content.Unusable?
      ensures content.Some? ==> content.value == FreshFile(path, now, maxAge).value.content
    {
      var file := FreshFile(path, now, maxAge);
      if file.None? || file.value.content.Unusable? {
        return None;
      }
      return Some(file.value.content);
    }

    method Save(path: Path, content: Content, now: int)
      modifies this
      ensures files == old(files)[path := File(content, now)]
    {
      files := files[path := File(content, now)];
    }

    /** Outside any search a file may become unreadable, fail validation, or disappear. */
    method Damage(path: Path, remove: bool)
      modifies this
      ensures files == Damaged(old(files), path, remove)
    {
      if path in files {
        files := if remove then files - {path} else files[path := File(Unusable, files[path].modified)];
      }
    }
  }

  // ---------------------------------------------------------------- what every stored file means

  ghost predicate HasCall(calls: seq<Call>, call: Call) {
    call in calls
  }

  /** A file holds what some call or computation for its own key produced. */
  ghost predicate Meaningful(path: Path, file: File, calls: seq<Call>) {
    match file.content
    case AttributesFile(attributes) => HasCall(calls, ModelCall(path.key, file.modified, attributes))
    case RawFile(raw) => HasCall(calls, MarketCall(path.key, file.modified, raw))
    case ProductsFile(products) =>
      path.key.NormalizedKey? && products == Normalized(path.key.raw, path.key.rate)
    case ScoresFile(scores) =>
      && path.key.ScoredKey? && path.key.normalized.NormalizedKey?
      && scores.attributes == path.key.attributes
      && scores.products == Normalized(path.key.normalized.raw, path.key.normalized.rate)
      && scores.terms == path.key.terms
    case Unusable => true
  }

  ghost predicate AllMeaningful(files: map<Path, File>, calls: seq<Call>) {
    forall path :: path in files ==> Meaningful(path, files[path], calls)
  }

  /** No scoring ever ran with weights other than those its settings, and so its key, named. */
  ghost predicate WeightsBound(files: map<Path, File>) {
    forall path :: path in files && files[path].content.ScoresFile? && path.key.ScoredKey? ==>
      files[path].content.scores.weights == path.key.weights
  }

  lemma {:induction false} MoreCalls(files: map<Path, File>, calls: seq<Call>, call: Call)
    requires AllMeaningful(files, calls)
    ensures AllMeaningful(files, calls + [call])
  {
    forall path | path in files ensures Meaningful(path, files[path], calls + [call]) {
      assert Meaningful(path, files[path], calls);
    }
  }

  /** Damage destroys files but never their meaning. */
  lemma {:induction false} DamageKeepsMeaning(files: map<Path, File>, calls: seq<Call>, path: Path, remove: bool)
    requires AllMeaningful(files, calls)
    ensures AllMeaningful(Damaged(files, path, remove), calls)
    ensures WeightsBound(files) ==> WeightsBound(Damaged(files, path, remove))
  {
    var after := Damaged(files, path, remove);
    forall p | p in after ensures Meaningful(p, after[p], calls) {
      assert p != path ==> Meaningful(p, files[p], calls);
    }
  }

  // ---------------------------------------------------------------- one search

  /** What the outside world answers during one search; nothing means the call raised. */
  datatype World = World(
    attributesTime: int, freshTime: int, loadTime: int, callTime: int,
    modelAnswer: Option<Attributes>, marketAnswer: Option<Raw>, select: Attributes -> string)

  /** Who asks, input and scope stripped: the settings now, and the weights bound when scoring was imported. */
  datatype Request = Request(
    settings: Settings, boundWeights: Weights, input: string, scope: string, useCache: bool)

  function AttributesPath(r: Request): Path {
    Path(r.settings.cacheDir, AttributesKey(r.scope, r.input, r.settings.languageModel))
  }

  function RawPath(r: Request, query: string): Path {
    Path(r.settings.cacheDir, RawKey(r.scope, query, r.settings.marketplace))
  }

  function ProductsPath(r: Request, raw: Raw): Path {
    Path(r.settings.cacheDir, NormalizedKey(r.scope, raw, r.settings.rate))
  }

  function ScoresPath(r: Request, attributes: Attributes, raw: Raw): Path {
    Path(r.settings.cacheDir,
         ScoredKey(attributes, ProductsPath(r, raw).key, r.settings.weights, r.settings.terms))
  }

  function Enabled(r: Request): bool {
    r.settings.enableCache && r.useCache
  }

  /** Attributes from a call of this scope, input and model, no older than their TTL. */
  ghost predicate AttributesFrom(r: Request, w: World, calls: seq<Call>, attributes: Attributes) {
    exists time :: HasCall(calls, ModelCall(AttributesPath(r).key, time, attributes))
                   && (time == w.callTime || w.attributesTime - time <= r.settings.attributesTtl)
  }

  /** A response from a call of this scope, query and marketplace, no older than its TTL. */
  ghost predicate RawFrom(r: Request, w: World, calls: seq<Call>, query: string, raw: Raw) {
    exists time :: HasCall(calls, MarketCall(RawPath(r, query).key, time, raw))
                   && (time == w.callTime || w.loadTime - time <= r.settings.rawTtl)
  }

  /** The pipeline without a cache. */
  function Uncached(r: Request, attributes: Attributes, raw: Raw): Scores {
    Scored(attributes, Normalized(raw, r.settings.rate), r.boundWeights, r.settings.terms)
  }

  datatype Answer = Answer(attributes: Attributes, raw: Raw, scores: Scores)

  // ---------------------------------------------------------------- what a search may reuse

  predicate FreshIn(files: map<Path, File>, path: Path, now: int, maxAge: int) {
    path in files && now - files[path].modified <= maxAge
  }

  predicate Holds(files: map<Path, File>, path: Path, content: Content) {
    path in files && files[path].content == content
  }

  predicate AttributesHit(files: map<Path, File>, r: Request, w: World) {
    var path := AttributesPath(r);
    && Enabled(r) && FreshIn(files, path, w.attributesTime, r.settings.attributesTtl)
    && files[path].content.AttributesFile?
  }

  /** The response file is looked at twice and must be fresh both times. */
  predicate RawHit(files: map<Path, File>, r: Request, w: World, query: string) {
    var path := RawPath(r, query);
    && Enabled(r) && FreshIn(files, path, w.freshTime, r.settings.rawTtl)
    && FreshIn(files, path, w.loadTime, r.settings.rawTtl) && files[path].content.RawFile?
  }

  /** The files of the first three steps hold what those steps found. */
  predicate Gathered(
    files: map<Path, File>, r: Request, select: Attributes -> string, attributes: Attributes, raw: Raw)
  {
    && Holds(files, AttributesPath(r), AttributesFile(attributes))
    && Holds(files, RawPath(r, select(attributes)), RawFile(raw))
    && Holds(files, ProductsPath(r, raw), ProductsFile(Normalized(raw, r.settings.rate)))
  }

  /** The files under scoring keys are the same. */
  ghost predicate SameScores(before: map<Path, File>, after: map<Path, File>) {
    forall path: Path :: path.key.ScoredKey? ==>
      (path in before <==> path in after) && (path in before ==> before[path] == after[path])
  }

  /** All four files of a search hold its answer. */
  predicate Stored(files: map<Path, File>, r: Request, select: Attributes -> string, a: Answer) {
    && Gathered(files, r, select, a.attributes, a.raw)
    && Holds(files, ScoresPath(r, a.attributes, a.raw), ScoresFile(a.scores))
  }

  /** A search that has to ask nobody: all four files hold this answer and the first two are fresh. */
  predicate Warm(files: map<Path, File>, r: Request, w: World, a: Answer) {
    && Stored(files, r, w.select, a)
    && AttributesHit(files, r, w) && RawHit(files, r, w, w.select(a.attributes))
  }

  /** Scores for these attributes and this response are reused, whatever their age. */
  predicate ScoresHit(files: map<Path, File>, r: Request, attributes: Attributes, raw: Raw) {
    var path := ScoresPath(r, attributes, raw);
    Enabled(r) && path in files && files[path].content.ScoresFile?
  }

  predicate Accepts(r: Request) {
    r.input != "" && r.scope != "" && |r.scope| <= 128
  }

  class Searcher {
    const repository: JsonCacheRepository
    var calls: seq<Call>

    constructor (repository: JsonCacheRepository)
      requires repository.files == map[]
      ensures this.repository == repository && calls == [] && Valid() && WeightsBound(repository.files)
    {
      this.repository := repository;
      calls := [];
    }

    ghost predicate Valid()
      reads this, repository
    {
      AllMeaningful(repository.files, calls)
    }

    /** Between two searches a file is damaged; what the remaining ones mean survives it. */
    method Suffer(path: Path, remove: bool)
      requires Valid()
      modifies repository
      ensures Valid() && repository.files == Damaged(old(repository.files), path, remove)
      ensures old(WeightsBound(repository.files)) ==> WeightsBound(repository.files)
    {
      DamageKeepsMeaning(repository.files, calls, path, remove);
      repository.Damage(path, remove);
    }

    /** Step 1: cached attributes, or a model call whose answer is written whether or not caching is on. */
    method FindAttributes(r: Request, w: World) returns (attributes: Option<Attributes>)
      requires Valid()
      modifies this, repository
      ensures Valid() && old(calls) <= calls
      ensures attributes.Some? ==> AttributesFrom(r, w, calls, attributes.value)
      ensures old(WeightsBound(repository.files)) ==> WeightsBound(repository.files)
      ensures old(AttributesHit(repository.files, r, w)) ==>
                && repository.files == old(repository.files) && calls == old(calls)
                && attributes == Some(repository.files[AttributesPath(r)].content.attributes)
      ensures !old(AttributesHit(repository.files, r, w)) ==> attributes == w.modelAnswer
      ensures !old(AttributesHit(repository.files, r, w)) && attributes.Some? ==>
                && calls == old(calls) + [ModelCall(AttributesPath(r).key, w.callTime, attributes.value)]
                && repository.files
                   == old(repository.files)[AttributesPath(r) := File(AttributesFile(attributes.value), w.callTime)]
      ensures attributes.None? ==> repository.files == old(repository.files) && calls == old(calls)
    {
      var path := AttributesPath(r);
      if Enabled(r) {
        var cached := repository.Load(path, w.attributesTime, Some(r.settings.attributesTtl));
        if cached.Some? && cached.value.AttributesFile? {
          assert Meaningful(path, repository.files[path], calls);
          return Some(cached.value.attributes);
        }
      }
      if w.modelAnswer.None? {
        return None;
      }
      MoreCalls(repository.files, calls, ModelCall(path.key, w.callTime, w.modelAnswer.value));
      calls := calls + [ModelCall(path.key, w.callTime, w.modelAnswer.value)];
      repository.Save(path, AttributesFile(w.modelAnswer.value), w.callTime);
      assert HasCall(calls, ModelCall(path.key, w.callTime, w.modelAnswer.value));
      return w.modelAnswer;
    }

    /** Step 3: a fresh cached response, or a marketplace call whose answer is stored and read back. */
    method FindRaw(r: Request, w: World, query: string) returns (raw: Option<Raw>)
      requires Valid()
      modifies this, repository
      ensures Valid() && old(calls) <= calls
      ensures raw.Some? ==> RawFrom(r, w, calls, query, raw.value) && RawPath(r, query) in repository.files
      ensures raw.Some? ==> repository.files[RawPath(r, query)].content == RawFile(raw.value)
      ensures old(WeightsBound(repository.files)) ==> WeightsBound(repository.files)
      ensures old(RawHit(repository.files, r, w, query)) ==>
                && repository.files == old(repository.files) && calls == old(calls) && raw.Some?
      ensures !old(RawHit(repository.files, r, w, query)) ==> raw == w.marketAnswer
      ensures !old(RawHit(repository.files, r, w, query)) && raw.Some? ==>
                && calls == old(calls) + [MarketCall(RawPath(r, query).key, w.callTime, raw.value)]
                && repository.files
                   == old(repository.files)[RawPath(r, query) := File(RawFile(raw.value), w.callTime)]
      ensures raw.None? ==> repository.files == old(repository.files) && calls == old(calls)
    {
      var path := RawPath(r, query);
      if Enabled(r) && repository.FreshFile(path, w.freshTime, Some(r.settings.rawTtl)).Some? {
        var cached := repository.Load(path, w.loadTime, Some(r.settings.rawTtl));
        if cached.Some? && cached.value.RawFile? {
          assert Meaningful(path, repository.files[path], calls);
          return Some(cached.value.raw);
        }
      }
      if w.marketAnswer.None? {
        return None;
      }
      MoreCalls(repository.files, calls, MarketCall(path.key, w.callTime, w.marketAnswer.value));
      calls := calls + [MarketCall(path.key, w.callTime, w.marketAnswer.value)];
      repository.Save(path, RawFile(w.marketAnswer.value), w.callTime);
      assert HasCall(calls, MarketCall(path.key, w.callTime, w.marketAnswer.value));
      return w.marketAnswer;
    }

    /** Normalization re-reads the response by its path; its result has no expiry. */
    method FindProducts(r: Request, w: World, query: string, raw: Raw) returns (products: Products)
      requires Valid()
      requires RawPath(r, query) in repository.files
      requires repository.files[RawPath(r, query)].content == RawFile(raw)
      modifies repository
      ensures Valid()
      ensures products == Normalized(raw, r.settings.rate)
      ensures old(WeightsBound(repository.files)) ==> WeightsBound(repository.files)
      ensures Holds(repository.files, ProductsPath(r, raw), ProductsFile(products))
      ensures repository.files == old(repository.files)
           || repository.files
              == old(repository.files)[ProductsPath(r, raw) := File(ProductsFile(products), w.callTime)]
      ensures Enabled(r) && Holds(old(repository.files), ProductsPath(r, raw), ProductsFile(products)) ==>
                repository.files == old(repository.files)
    {
      var path := ProductsPath(r, raw);
      if Enabled(r) {
        var cached := repository.Load(path, w.loadTime, None);
        if cached.Some? && cached.value.ProductsFile? {
          assert Meaningful(path, repository.files[path], calls);
          return cached.value.products;
        }
      }
      var stored := repository.files[RawPath(r, query)].content;
      products := Normalized(stored.raw, r.settings.rate);
      repository.Save(path, ProductsFile(products), w.callTime);
    }

    /** Step 4: cached scores, or a scoring run with the weights bound at import. */
    method FindScores(r: Request, w: World, attributes: Attributes, raw: Raw) returns (scores: Scores)
      requires Valid()
      modifies repository
      ensures Valid()
      ensures scores.attributes == attributes && scores.products == Normalized(raw, r.settings.rate)
      ensures scores.terms == r.settings.terms
      ensures Holds(repository.files, ScoresPath(r, attributes, raw), ScoresFile(scores))
      ensures repository.files == old(repository.files)
           || repository.files
              == old(repository.files)[ScoresPath(r, attributes, raw) := File(ScoresFile(scores), w.callTime)]
      ensures ScoresHit(old(repository.files), r, attributes, raw) ==> repository.files == old(repository.files)
      ensures old(WeightsBound(repository.files)) && r.boundWeights == r.settings.weights ==>
                WeightsBound(repository.files)
      ensures scores.weights ==
              if ScoresHit(old(repository.files), r, attributes, raw)
              then old(repository.files)[ScoresPath(r, attributes, raw)].content.scores.weights
              else r.boundWeights
    {
      var path := ScoresPath(r, attributes, raw);
      if Enabled(r) {
        var cached := repository.Load(path, w.loadTime, None);
        if cached.Some? && cached.value.ScoresFile? {
          assert Meaningful(path, repository.files[path], calls);
          return cached.value.scores;
        }
      }
      scores := Scored(attributes, Normalized(raw, r.settings.rate), r.boundWeights, r.settings.terms);
      repository.Save(path, ScoresFile(scores), w.callTime);
    }

    /** The first three steps; they never touch a file of scores. */
    method Gather(r: Request, w: World) returns (found: Option<(Attributes, Raw)>)
      requires Valid()
      modifies this, repository
      ensures Valid() && old(calls) <= calls
      ensures found.Some? ==>
                && AttributesFrom(r, w, calls, found.value.0)
                && RawFrom(r, w, calls, w.select(found.value.0), found.value.1)
                && Gathered(repository.files, r, w.select, found.value.0, found.value.1)
      ensures SameScores(old(repository.files), repository.files)
      ensures w.modelAnswer.Some? && w.marketAnswer.Some? ==> found.Some?
      ensures forall a :: Warm(old(repository.files), r, w, a) ==>
                found == Some((a.attributes, a.raw)) && calls == old(calls)
                && repository.files == old(repository.files)
    {
      var attributes := FindAttributes(r, w);
      if attributes.None? { return None; }
      var query := w.select(attributes.value);
      ghost var before := calls;
      var raw := FindRaw(r, w, query);
      if raw.None? { return None; }
      StillFrom(r, w, before, calls, attributes.value);
      var _ := FindProducts(r, w, query, raw.value);
      return Some((attributes.value, raw.value));
    }

    /**
     One search.  Its scores are what the pipeline without a cache computes from attributes and a
     response that came from calls of the same scope no older than their TTL, up to the weights: they
     agree in those too exactly when stored scores are not reused or had been computed with the weights
     bound now, which holds when every process bound the weights its settings name.  Every answer is left
     in the four files, and a search that finds an answer there, fresh, repeats it without a call.
     */
    method RunProductSearch(r: Request, w: World) returns (answer: Option<Answer>)
      requires Valid()
      modifies this, repository
      ensures Valid() && old(calls) <= calls
      ensures answer.Some? ==>
                && AttributesFrom(r, w, calls, answer.value.attributes)
                && RawFrom(r, w, calls, w.select(answer.value.attributes), answer.value.raw)
                && answer.value.scores.(weights := r.boundWeights)
                   == Uncached(r, answer.value.attributes, answer.value.raw)
      ensures answer.Some? ==>
                var attributes, raw := answer.value.attributes, answer.value.raw;
                (answer.value.scores == Uncached(r, attributes, raw)
                 <==> (ScoresHit(old(repository.files), r, attributes, raw) ==>
                         old(repository.files)[ScoresPath(r, attributes, raw)].content.scores.weights
                         == r.boundWeights))
      ensures old(WeightsBound(repository.files)) && r.boundWeights == r.settings.weights ==>
                && WeightsBound(repository.files)
                && (answer.Some? ==>
                      answer.value.scores == Uncached(r, answer.value.attributes, answer.value.raw))
      ensures Accepts(r) && w.modelAnswer.Some? && w.marketAnswer.Some? ==> answer.Some?
      ensures answer.Some? ==> Accepts(r) && Stored(repository.files, r, w.select, answer.value)
      ensures forall a :: Accepts(r) && Warm(old(repository.files), r, w, a) ==>
                answer == Some(a) && calls == old(calls) && repository.files == old(repository.files)
    {
      if !Accepts(r) {
        return None;
      }
      var found := Gather(r, w);
      SameScoresBound(old(repository.files), repository.files);
      if found.None? { return None; }
      var scores := FindScores(r, w, found.value.0, found.value.1);
      return Some(Answer(found.value.0, found.value.1, scores));
    }
  }

  lemma {:induction false} SameScoresBound(before: map<Path, File>, after: map<Path, File>)
    requires SameScores(before, after)
    ensures WeightsBound(before) ==> WeightsBound(after)
  {
    forall path | WeightsBound(before) && path in after && after[path].content.ScoresFile? && path.key.ScoredKey?
      ensures after[path].content.scores.weights == path.key.weights
    {
      assert path in before && before[path] == after[path];
    }
  }

  /**
   When an earlier process scored with weights it had bound before they were changed, a later search
   whose own weights are right still gets the earlier scores: the key named the new weights both times.
   */
  method StaleWeights(searcher: Searcher, r: Request, w: World, bound: Weights, attributes: Attributes, raw: Raw)
    returns (scores: Scores)
    requires searcher.Valid() && searcher.repository.files == map[] && Enabled(r)
    requires r.boundWeights == r.settings.weights != bound
    modifies searcher, searcher.repository
    ensures scores == Uncached(r.(boundWeights := bound), attributes, raw) != Uncached(r, attributes, raw)
  {
    var earlier := searcher.FindScores(r.(boundWeights := bound), w, attributes, raw);
    assert ScoresPath(r.(boundWeights := bound), attributes, raw) == ScoresPath(r, attributes, raw);
    scores := searcher.FindScores(r, w, attributes, raw);
  }

  lemma {:induction false} StillFrom(r: Request, w: World, before: seq<Call>, after: seq<Call>, attributes: Attributes)
    requires before <= after && AttributesFrom(r, w, before, attributes)
    ensures AttributesFrom(r, w, after, attributes)
  {
    var time :| HasCall(before, ModelCall(AttributesPath(r).key, time, attributes))
                && (time == w.callTime || w.attributesTime - time <= r.settings.attributesTtl);
    assert HasCall(after, ModelCall(AttributesPath(r).key, time, attributes));
  }
}
