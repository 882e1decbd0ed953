/** The embedding cache in terms of the fields of the bodies: which requests share an entry, what a
    hit answers, and what the compatible path changes. */
module CacheFields {
  import opened Common
  import opened CanonicalJson
  import opened CacheKey
  import opened CacheProxy

  type Fields = map<string, JsonValue>

  /** Values that count as no model at all. */
  predicate Nothing(v: JsonValue) {
    v == Null || v == Bool(false) || v == Str("") || v == Arr([]) || v == Obj([])
    || v == Num("0") || v == Num("0.0") || v == Num("-0.0")
  }

  /** The model that a body names; an absent or empty one is "". */
  predicate NamesModel(body: Fields, m: string) {
    if "model" in body && !Nothing(body["model"]) then body["model"] == Str(m) else m == ""
  }

  /** The prompt of a body for /api/embeddings; an absent one is "". */
  function Prompt(body: Fields): JsonValue {
    if "prompt" in body then body["prompt"] else Str("")
  }

  /** The input of a body for /api/embed; an absent one is "". */
  function Input(body: Fields): JsonValue {
    if "input" in body then body["input"] else Str("")
  }

  /** The same input: a string counts as the list of that one string. */
  predicate SameInput(x: JsonValue, y: JsonValue) {
    x == y || (x.Str? && y == Arr([x])) || (y.Str? && x == Arr([y]))
  }

  lemma NothingIsFalsy(v: JsonValue)
    ensures Nothing(v) <==> Falsy(v)
  {
  }

  lemma NamesModelIff(cfg: CacheConfig, r: Request, body: Fields, m: string)
    requires Body(cfg, r) == Some(body)
    ensures NamesModel(body, m) <==> CacheModel(cfg, r) == Str(m)
  {
    if "model" in body {
      NothingIsFalsy(body["model"]);
    }
    hide Body, Nothing, Falsy;
  }

  lemma PayloadOfEmbed(x: Fields, y: Fields)
    ensures Payload(Embed, x) == Payload(Embed, y) <==> SameInput(Input(x), Input(y))
  {
    assert Field(x, "input") == Input(x) && Field(y, "input") == Input(y);
    hide Field, Input;
  }

  lemma PayloadOfEmbeddings(x: Fields, y: Fields)
    ensures Payload(Embeddings, x) == Payload(Embeddings, y) <==> Prompt(x) == Prompt(y)
  {
  }

  // ---- which requests share an entry ---------------------------------------

  /** Two requests for /api/embeddings share an entry if and only if they name one model and one
      prompt, unless the digest collides on the two. */
  lemma PromptsDecide(cfg: CacheConfig, a: Request, x: Fields, m: string, b: Request, y: Fields, n: string)
    requires cfg.enabled && DigestTells(cfg, a, b) && a.path == "/api/embeddings" && b.path == "/api/embeddings"
    requires Body(cfg, a) == Some(x) && Body(cfg, b) == Some(y) && NamesModel(x, m) && NamesModel(y, n)
    ensures RequestKey(cfg, a).Some? && RequestKey(cfg, b).Some?
    ensures RequestKey(cfg, a) == RequestKey(cfg, b) <==> m == n && Prompt(x) == Prompt(y)
  {
    NamesModelIff(cfg, a, x, m);
    NamesModelIff(cfg, b, y, n);
    PayloadOfEmbeddings(x, y);
    SameKeyIffSameQuestion(cfg, a, b);
    PathsAreTold();
    hide Body, CacheModel, Payload, KeyOf, DigestTells, NamesModel, Prompt;
  }

  /** Two requests for /api/embed share an entry if and only if they name one model and one input, a
      string and the list of that string counting as one. */
  lemma InputsDecide(cfg: CacheConfig, a: Request, x: Fields, m: string, b: Request, y: Fields, n: string)
    requires cfg.enabled && DigestTells(cfg, a, b) && a.path == "/api/embed" && b.path == "/api/embed"
    requires Body(cfg, a) == Some(x) && Body(cfg, b) == Some(y) && NamesModel(x, m) && NamesModel(y, n)
    ensures RequestKey(cfg, a).Some? && RequestKey(cfg, b).Some?
    ensures RequestKey(cfg, a) == RequestKey(cfg, b) <==> m == n && SameInput(Input(x), Input(y))
  {
    NamesModelIff(cfg, a, x, m);
    NamesModelIff(cfg, b, y, n);
    PayloadOfEmbed(x, y);
    SameKeyIffSameQuestion(cfg, a, b);
    PathsAreTold();
    hide Body, CacheModel, Payload, KeyOf, DigestTells, NamesModel, Input, SameInput;
  }

  lemma PathsAreTold()
    ensures EndpointOf("/api/embed") == Some(Embed) && EndpointOf("/api/embeddings") == Some(Embeddings)
  {
    assert |"/api/embed"| != |"/api/embeddings"|;
  }

  /** Requests for different paths never share an entry, whatever the digest. */
  lemma PathsNeverShare(cfg: CacheConfig, a: Request, b: Request)
    requires RequestKey(cfg, a).Some? && RequestKey(cfg, b).Some? && a.path != b.path
    ensures RequestKey(cfg, a) != RequestKey(cfg, b)
  {
    hide Body, CacheModel, Payload, Preimage, Namespace;
    var d1 := cfg.digest(PreimageOf(cfg, a));
    var d2 := cfg.digest(PreimageOf(cfg, b));
    EndpointsNeverShareKeys(cfg.prefix, d1, d2);
    EndpointsNeverShareKeys(cfg.prefix, d2, d1);
  }

  /** What is looked up at all: the two paths, a body that is a dictionary (an empty or malformed one
      counts as {}), and a model that is text or nothing. */
  lemma LookedUpIff(cfg: CacheConfig, r: Request)
    ensures RequestKey(cfg, r).Some?
            <==> && cfg.enabled && (r.path == "/api/embed" || r.path == "/api/embeddings")
                 && exists body, m :: NamesModel(body, m)
                      && (Body(cfg, r) == Some(body))
    ensures r.raw == "" || cfg.parse(r.raw) == Malformed ==> Body(cfg, r) == Some(map[])
    ensures r.raw != "" && cfg.parse(r.raw).Value? && !cfg.parse(r.raw).v.Obj? ==> Body(cfg, r) == None
  {
    PathsAreTold();
    if Body(cfg, r).Some? {
      var body := Body(cfg, r).value;
      if CacheModel(cfg, r).Str? {
        NamesModelIff(cfg, r, body, CacheModel(cfg, r).s);
      }
      forall m | NamesModel(body, m) ensures CacheModel(cfg, r) == Str(m) {
        NamesModelIff(cfg, r, body, m);
      }
    }
    hide CacheModel, NamesModel, KeyOf;
  }

  // ---- what a hit answers --------------------------------------------------

  /** Same path, same model, and the same prompt or input. */
  ghost predicate SameAsk(cfg: CacheConfig, a: Request, b: Request) {
    && a.path == b.path && Body(cfg, a).Some? && Body(cfg, b).Some?
    && (exists m :: NamesModel(Body(cfg, a).value, m) && NamesModel(Body(cfg, b).value, m))
    && (if b.path == "/api/embed" then SameInput(Input(Body(cfg, a).value), Input(Body(cfg, b).value))
        else Prompt(Body(cfg, a).value) == Prompt(Body(cfg, b).value))
  }

  lemma SharedKeyAsksTheSame(cfg: CacheConfig, a: Request, b: Request)
    requires cfg.enabled && DigestTells(cfg, a, b) && RequestKey(cfg, a).Some? && RequestKey(cfg, a) == RequestKey(cfg, b)
    ensures SameAsk(cfg, a, b)
  {
    SameKeyIffSameQuestion(cfg, a, b);
    var x, y, m := Body(cfg, a).value, Body(cfg, b).value, CacheModel(cfg, a).s;
    NamesModelIff(cfg, a, x, m);
    NamesModelIff(cfg, b, y, m);
    PayloadOfEmbed(x, y);
    PayloadOfEmbeddings(x, y);
    PathsAreTold();
    hide Body, CacheModel, Payload, KeyOf, DigestTells, NamesModel, Input, SameInput, Prompt;
  }

  /** What a hit answers: the upstream's body for a request in play that asked the same, wrapped on
      the compatible path. */
  lemma HitAnswersTheSameAsk(cfg: CacheConfig, upstream: Request -> JsonValue, inPlay: Request -> bool, events: seq<Event>,
                             b: Request, w: Weather) returns (a: Request)
    requires cfg.enabled && forall p, q :: inPlay(p) && inPlay(q) ==> DigestTells(cfg, p, q)
    requires AllFaithful(upstream, events) && AllInPlay(inPlay, events) && inPlay(b)
    requires Hit(cfg, Run(cfg, map[], events), b, w)
    ensures inPlay(a) && SameAsk(cfg, a, b)
    ensures Handle(cfg, Run(cfg, map[], events), b, w).1.response
            == Response(200, Some(if b.compat then cfg.wrap(upstream(a)) else upstream(a)))
  {
    hide RequestKey, DigestTells, SameAsk;
    EntriesAreExplained(cfg, upstream, inPlay, map[], events);
    var store, key := Run(cfg, map[], events), RequestKey(cfg, b).value;
    assert Explained(cfg, upstream, inPlay, store, key);
    a :| inPlay(a) && RequestKey(cfg, a) == Some(key) && store[key] == upstream(a) && cfg.size(upstream(a)) <= cfg.maxEntryBytes;
    hide Run, Explained;
    SharedKeyAsksTheSame(cfg, a, b);
  }

  /** A backend that fails on the lookup makes a miss, and one that fails on the store stores
      nothing; the client sees the uncached reply either way. */
  lemma FailingBackendIsUncached(cfg: CacheConfig, store: Store, r: Request, w: Weather)
    ensures w.getFails.Some? ==> Handle(cfg, store, r, w).1 == Handle(cfg.(enabled := false), map[], r, w).1
    ensures w.setFails.Some? ==> Handle(cfg, store, r, w).0 == store
    ensures w.answer.status != 200 || w.answer.body.None? ==> Handle(cfg, store, r, w).0 == store
  {
    assert RequestKey(cfg.(enabled := false), r) == None;
    hide RequestKey;
  }

  /** The text of a key: the configured prefix, the version and the endpoint, and the digest. */
  lemma KeyText(cfg: CacheConfig, r: Request)
    requires RequestKey(cfg, r).Some?
    ensures r.path == "/api/embed" ==> RequestKey(cfg, r) == Some(cfg.prefix + "v1:embed:" + cfg.digest(PreimageOf(cfg, r)))
    ensures r.path == "/api/embeddings" ==> RequestKey(cfg, r) == Some(cfg.prefix + "v1:embeddings:" + cfg.digest(PreimageOf(cfg, r)))
  {
    PathsAreTold();
    hide Body, CacheModel, Preimage, Payload;
  }

  /** Counters are kept apart by label, and the label by client, model and path; a request without a
      client id, or with an empty one, counts as "anon". */
  lemma CountersAreApart(counters: Counters, key: string, other: string, model: string, path: string)
    ensures key in Tally(counters, key) && Tally(counters, key)[key] == (if key in counters then counters[key] else 0) + 1
    ensures other != key ==> (other in Tally(counters, key) <==> other in counters)
                             && (other in counters ==> Tally(counters, key)[other] == counters[other])
    ensures MetricKey(None, model, path) == MetricKey(Some(""), model, path) == "anon" + "," + model + "," + path
    ensures key != "" ==> MetricKey(Some(key), model, path) == key + "," + model + "," + path
  {
  }

  // ---- the compatible path -------------------------------------------------

  /** The compatible path sees the same cache, and wraps exactly once what the native path answers
      with status 200 and JSON; it changes nothing else. */
  lemma CompatWrapsOnce(cfg: CacheConfig, store: Store, r: Request, w: Weather)
    ensures var native, compat := Handle(cfg, store, r.(compat := false), w), Handle(cfg, store, r.(compat := true), w);
            && compat.0 == native.0 && compat.1.hit == native.1.hit
            && compat.1.response == (if native.1.response.status == 200 && native.1.response.body.Some?
                                     then Response(200, Some(cfg.wrap(native.1.response.body.value))) else native.1.response)
            && (!native.1.hit ==> native.1.response == w.answer)
            && (native.1.hit ==> exists key :: key in store && native.1.response == Response(200, Some(store[key])))
  {
    var n := r.(compat := false);
    assert RequestKey(cfg, n) == RequestKey(cfg, r.(compat := true));
    hide RequestKey;
    if Hit(cfg, store, n, w) {
      assert RequestKey(cfg, n).value in store;
    }
  }
}
