/** The request path around the embedding cache, main.py and cache.py: look up, or dispatch and
    store, and wrap the answer for the OpenAI-compatible path. */
module CacheProxy {
  import opened Common
  import opened CanonicalJson
  import opened CacheKey

  /** What the JSON parser makes of a body: a value, with dictionaries listed in key order, or an
      error. */
  datatype Parsed = Malformed | Value(v: JsonValue)

  /** `parse` is the JSON parser, `wrap` the translation to the OpenAI format, `size` the length of
      a stored body, `digest` the hash; all four are parameters. */
  datatype CacheConfig = CacheConfig(
    enabled: bool,
    prefix: string,
    maxEntryBytes: int,
    digest: seq<Byte> -> string,
    parse: string -> Parsed,
    size: JsonValue -> nat,
    wrap: JsonValue -> JsonValue)

  /** `path` is the native path; `compat` says that the request came in on /v1/embeddings. `raw`
      is the text of the body, from which everything else about it is read. `envelope` stands for
      the HTTP method, the query and the headers, which go upstream with it. */
  datatype Request = Request(path: string, compat: bool, client: Option<string>, envelope: string, raw: string)

  /** The dispatch's answer; a body only for a buffered JSON response. */
  datatype Response = Response(status: int, body: Option<JsonValue>)

  /** How the backend behaves for one request (the kind of the exception, if it fails), and what
      the queue and the upstream answer. */
  datatype Weather = Weather(getFails: Option<string>, setFails: Option<string>, answer: Response)

  datatype Reply = Reply(response: Response, hit: bool)

  type Store = map<string, JsonValue>

  function Dict(entries: seq<Entry>): map<string, JsonValue>
    requires PrintableEntries(entries)
  {
    if entries == [] then map[]
    else
      var rest := Dict(entries[1..]);
      if entries[0].key in rest then rest else rest[entries[0].key := entries[0].value]
  }

  /** The parsed body: an empty or malformed one counts as {}; None stands for a body that is JSON
      but no dictionary. */
  function Body(cfg: CacheConfig, r: Request): Option<map<string, JsonValue>> {
    if r.raw == "" then Some(map[])
    else
      match cfg.parse(r.raw)
      case Malformed => Some(map[])
      case Value(v) => if v.Obj? then Some(Dict(v.entries)) else None
  }

  predicate Falsy(v: JsonValue) {
    match v
    case Null => true
    case Bool(b) => !b
    case Num(text) => text in {"0", "0.0", "-0.0"}
    case Str(s) => s == ""
    case Arr(items) => items == []
    case Obj(entries) => entries == []
  }

  /** `extract_model(body) or ""`: any value may stand in the field. */
  function CacheModel(cfg: CacheConfig, r: Request): JsonValue {
    match Body(cfg, r)
    case None => Str("")
    case Some(body) => if "model" in body && !Falsy(body["model"]) then body["model"] else Str("")
  }

  /** `_build_key`: no key for a path that is not cached, or a model name that is no text. */
  function BuildKey(cfg: CacheConfig, path: string, body: map<string, JsonValue>, model: JsonValue): Option<string> {
    match EndpointOf(path)
    case None => None
    case Some(endpoint) => if model.Str? then Some(KeyOf(cfg.prefix, cfg.digest, endpoint, model.s, body)) else None
  }

  /** The key under which the request is looked up, if it is cacheable at all. */
  function RequestKey(cfg: CacheConfig, r: Request): Option<string> {
    if cfg.enabled && Body(cfg, r).Some? then BuildKey(cfg, r.path, Body(cfg, r).value, CacheModel(cfg, r)) else None
  }

  /** The last step of the compatible path: only a JSON answer with status 200 is wrapped. */
  function Finish(cfg: CacheConfig, r: Request, response: Response): Response {
    if r.compat && response.status == 200 && response.body.Some?
    then Response(200, Some(cfg.wrap(response.body.value))) else response
  }

  predicate Stored(cfg: CacheConfig, r: Request, w: Weather) {
    && RequestKey(cfg, r).Some? && w.setFails.None?
    && w.answer.status == 200 && w.answer.body.Some? && cfg.size(w.answer.body.value) <= cfg.maxEntryBytes
  }

  predicate Hit(cfg: CacheConfig, store: Store, r: Request, w: Weather) {
    RequestKey(cfg, r).Some? && w.getFails.None? && RequestKey(cfg, r).value in store
  }

  function Handle(cfg: CacheConfig, store: Store, r: Request, w: Weather): (Store, Reply) {
    if Hit(cfg, store, r, w) then
      (store, Reply(Finish(cfg, r, Response(200, Some(store[RequestKey(cfg, r).value]))), true))
    else
      (if Stored(cfg, r, w) then store[RequestKey(cfg, r).value := w.answer.body.value] else store,
       Reply(Finish(cfg, r, w.answer), false))
  }

  // ---- the cache object ----------------------------------------------------

  type Counters = map<string, nat>

  function Tally(counters: Counters, key: string): Counters {
    counters[key := (if key in counters then counters[key] else 0) + 1]
  }

  /** The label under which hits and misses are counted. */
  function MetricKey(client: Option<string>, model: string, path: string): string {
    (if client.Some? && client.value != "" then client.value else "anon") + "," + model + "," + path
  }

  /** EmbeddingCache, with the RESP store it talks to and the counters it keeps. A failing
      backend is logged and counted by the kind of the exception, never passed on. */
  class EmbeddingCache {
    const cfg: CacheConfig
    var store: Store
    var hits: Counters
    var misses: Counters
    var errors: Counters

    constructor (cfg: CacheConfig)
      ensures this.cfg == cfg && store == map[] && hits == misses == errors == map[]
    {
      this.cfg, store := cfg, map[];
      hits, misses, errors := map[], map[], map[];
    }

    method Get(path: string, body: map<string, JsonValue>, model: JsonValue, client: Option<string>, fails: Option<string>)
      returns (value: Option<JsonValue>)
      modifies this`hits, this`misses, this`errors
      ensures var key := BuildKey(cfg, path, body, model);
              var asked := cfg.enabled && key.Some?;
              && value == (if asked && fails.None? && key.value in store then Some(store[key.value]) else None)
              && hits == (if value.Some? then Tally(old(hits), MetricKey(client, model.s, path)) else old(hits))
              && misses == (if asked && fails.None? && value.None? then Tally(old(misses), MetricKey(client, model.s, path))
                            else old(misses))
              && errors == (if asked && fails.Some? then Tally(old(errors), fails.value) else old(errors))
    {
      if !cfg.enabled {
        return None;
      }
      var key := BuildKey(cfg, path, body, model);
      if key == None {
        return None;
      }
      var mkey := MetricKey(client, model.s, path);
      if fails.Some? {
        errors := Tally(errors, fails.value);
        return None;
      }
      if key.value in store {
        hits := Tally(hits, mkey);
        return Some(store[key.value]);
      }
      misses := Tally(misses, mkey);
      return None;
    }

    method Set(path: string, body: map<string, JsonValue>, model: JsonValue, response: JsonValue, fails: Option<string>)
      modifies this`store, this`errors
      ensures var key := BuildKey(cfg, path, body, model);
              var tried := cfg.enabled && cfg.size(response) <= cfg.maxEntryBytes && key.Some?;
              && store == (if tried && fails.None? then old(store)[key.value := response] else old(store))
              && errors == (if tried && fails.Some? then Tally(old(errors), fails.value) else old(errors))
    {
      if !cfg.enabled {
        return;
      }
      if cfg.size(response) > cfg.maxEntryBytes {
        return;
      }
      var key := BuildKey(cfg, path, body, model);
      if key == None {
        return;
      }
      if fails.Some? {
        errors := Tally(errors, fails.value);
        return;
      }
      store := store[key.value := response];
    }

    /** The request path: cache, dispatch, cache again, wrap. */
    method HandleRequest(r: Request, w: Weather) returns (reply: Reply)
      modifies this
      ensures (store, reply) == Handle(cfg, old(store), r, w)
    {
      var body, model := Body(cfg, r), CacheModel(cfg, r);
      var cacheable := EndpointOf(r.path).Some? && body.Some?;
      if cacheable {
        var cached := Get(r.path, body.value, model, r.client, w.getFails);
        if cached.Some? {
          return Reply(Finish(cfg, r, Response(200, cached)), true);
        }
      }
      if cacheable && w.answer.status == 200 && w.answer.body.Some? {
        Set(r.path, body.value, model, w.answer.body.value, w.setFails);
      }
      return Reply(Finish(cfg, r, w.answer), false);
    }
  }

  // ---- runs ----------------------------------------------------------------

  /** One thing that happens: a request is served, or the store loses an entry. */
  datatype Event = Serve(r: Request, w: Weather) | Lose(key: string)

  function Apply(cfg: CacheConfig, store: Store, e: Event): Store {
    match e
    case Serve(r, w) => Handle(cfg, store, r, w).0
    case Lose(key) => store - {key}
  }

  function Run(cfg: CacheConfig, store: Store, events: seq<Event>): Store
    decreases |events|
  {
    if events == [] then store else Run(cfg, Apply(cfg, store, events[0]), events[1..])
  }

  /** `upstream` gives the body with which the upstream answers a request when it answers it with
      status 200 and JSON. */
  predicate Faithful(upstream: Request -> JsonValue, e: Event) {
    e.Serve? && e.w.answer.status == 200 && e.w.answer.body.Some? ==> e.w.answer.body.value == upstream(e.r)
  }

  /** After these events, is a hit for `r` the answer the upstream would give? */
  predicate HitIsExact(cfg: CacheConfig, upstream: Request -> JsonValue, events: seq<Event>, r: Request, w: Weather) {
    Hit(cfg, Run(cfg, map[], events), r, w) ==>
      Handle(cfg, Run(cfg, map[], events), r, w).1.response == Finish(cfg, r, Response(200, Some(upstream(r))))
  }

  ghost predicate AllFaithful(upstream: Request -> JsonValue, events: seq<Event>) {
    forall e :: e in events ==> Faithful(upstream, e)
  }

  /** Only requests from `inPlay` are made. */
  ghost predicate AllInPlay(inPlay: Request -> bool, events: seq<Event>) {
    forall e :: e in events && e.Serve? ==> inPlay(e.r)
  }

  /** Every hit is what the upstream would have answered with status 200: after every faithful run
      of requests in play, for every request in play. */
  ghost predicate Transparent(cfg: CacheConfig, upstream: Request -> JsonValue, inPlay: Request -> bool) {
    forall events, r, w :: AllFaithful(upstream, events) && AllInPlay(inPlay, events) && inPlay(r) ==>
      HitIsExact(cfg, upstream, events, r, w)
  }

  /** What exact hits mean for the client: where the uncached proxy would answer with status 200 and
      JSON, the reply is the uncached one; and a miss is the uncached reply in any case. */
  lemma ReplyIsUncached(cfg: CacheConfig, upstream: Request -> JsonValue, events: seq<Event>, r: Request, w: Weather)
    requires HitIsExact(cfg, upstream, events, r, w) && Faithful(upstream, Serve(r, w))
    ensures var store := Run(cfg, map[], events);
            var cached, uncached := Handle(cfg, store, r, w).1, Handle(cfg.(enabled := false), map[], r, w).1;
            && ((w.answer.status == 200 && w.answer.body.Some?) || !cached.hit ==> cached.response == uncached.response)
            && (cached.hit ==> cached.response.status == 200)
  {
  }

  /** The body stored for `a` answers `b` as well. */
  predicate Interchangeable(cfg: CacheConfig, upstream: Request -> JsonValue, a: Request, b: Request) {
    RequestKey(cfg, a).Some? && RequestKey(cfg, a) == RequestKey(cfg, b) && cfg.size(upstream(a)) <= cfg.maxEntryBytes ==>
      Finish(cfg, b, Response(200, Some(upstream(a)))) == Finish(cfg, b, Response(200, Some(upstream(b))))
  }

  /** Where an entry comes from: a request in play with that key, whose answer was small enough. */
  ghost predicate Explained(cfg: CacheConfig, upstream: Request -> JsonValue, inPlay: Request -> bool, store: Store, key: string) {
    key in store ==>
      exists a :: inPlay(a) && RequestKey(cfg, a) == Some(key) && store[key] == upstream(a) && cfg.size(upstream(a)) <= cfg.maxEntryBytes
  }

  lemma {:induction false} EntriesAreExplained(cfg: CacheConfig, upstream: Request -> JsonValue, inPlay: Request -> bool,
                                               store: Store, events: seq<Event>)
    requires forall key :: Explained(cfg, upstream, inPlay, store, key)
    requires AllFaithful(upstream, events) && AllInPlay(inPlay, events)
    ensures forall key :: Explained(cfg, upstream, inPlay, Run(cfg, store, events), key)
    decreases |events|
  {
    if events != [] {
      var e := events[0];
      var s1 := Apply(cfg, store, e);
      assert e in events && Faithful(upstream, e);
      forall key ensures Explained(cfg, upstream, inPlay, s1, key) {
        assert Explained(cfg, upstream, inPlay, store, key);
        hide RequestKey, Finish;
        if e.Serve? && !Hit(cfg, store, e.r, e.w) && Stored(cfg, e.r, e.w) && RequestKey(cfg, e.r) == Some(key) {
          assert s1[key] == upstream(e.r) && inPlay(e.r);
        }
      }
      assert forall x :: x in events[1..] ==> x in events;
      hide Explained, Apply;
      EntriesAreExplained(cfg, upstream, inPlay, s1, events[1..]);
    }
  }

  /** The cache is transparent over all runs of gets, sets, losses and backend errors exactly
      when any two requests in play with one key, the first with a storable answer, have the same
      answer; on the compatible path, the same after wrapping. */
  lemma TransparentIff(cfg: CacheConfig, upstream: Request -> JsonValue, inPlay: Request -> bool)
    ensures Transparent(cfg, upstream, inPlay)
            <==> forall a, b :: inPlay(a) && inPlay(b) ==> Interchangeable(cfg, upstream, a, b)
  {
    hide RequestKey, Finish;
    if forall a, b :: inPlay(a) && inPlay(b) ==> Interchangeable(cfg, upstream, a, b) {
      forall events, r, w | AllFaithful(upstream, events) && AllInPlay(inPlay, events) && inPlay(r)
        ensures HitIsExact(cfg, upstream, events, r, w)
      {
        EntriesAreExplained(cfg, upstream, inPlay, map[], events);
        var store := Run(cfg, map[], events);
        if Hit(cfg, store, r, w) {
          var key := RequestKey(cfg, r).value;
          assert Explained(cfg, upstream, inPlay, store, key);
          var a :| inPlay(a) && RequestKey(cfg, a) == Some(key) && store[key] == upstream(a) && cfg.size(upstream(a)) <= cfg.maxEntryBytes;
          assert Interchangeable(cfg, upstream, a, r);
        }
      }
    }
    if Transparent(cfg, upstream, inPlay) {
      forall a, b | inPlay(a) && inPlay(b) ensures Interchangeable(cfg, upstream, a, b) {
        StoreThenHit(cfg, upstream, inPlay, a, b);
      }
    }
  }

  lemma RunOne(cfg: CacheConfig, e: Event)
    ensures Run(cfg, map[], [e]) == Apply(cfg, map[], e)
  {
    hide Apply;
    assert [e][1..] == [];
    assert Run(cfg, Apply(cfg, map[], e), []) == Apply(cfg, map[], e);
  }

  /** A run that stores the answer to `a`: the next request with that key is answered by it. */
  lemma StoreThenHit(cfg: CacheConfig, upstream: Request -> JsonValue, inPlay: Request -> bool, a: Request, b: Request)
    requires Transparent(cfg, upstream, inPlay) && inPlay(a) && inPlay(b)
    ensures Interchangeable(cfg, upstream, a, b)
  {
    hide RequestKey, Finish;
    if RequestKey(cfg, a).Some? && RequestKey(cfg, a) == RequestKey(cfg, b) && cfg.size(upstream(a)) <= cfg.maxEntryBytes {
      var w := Weather(None, None, Response(200, Some(upstream(a))));
      var events := [Serve(a, w)];
      assert AllFaithful(upstream, events) && AllInPlay(inPlay, events);
      RunOne(cfg, Serve(a, w));
      assert HitIsExact(cfg, upstream, events, b, w);
    }
  }

  // ---- in terms of what a request asks for ---------------------------------

  /** A request that is looked up: cached path, dictionary, textual model name. */
  predicate Cacheable(cfg: CacheConfig, r: Request) {
    EndpointOf(r.path).Some? && Body(cfg, r).Some? && CacheModel(cfg, r).Str?
  }

  /** Same endpoint, model and normalised payload. */
  predicate SameQuestion(cfg: CacheConfig, a: Request, b: Request) {
    && Cacheable(cfg, a) && Cacheable(cfg, b)
    && EndpointOf(a.path) == EndpointOf(b.path)
    && CacheModel(cfg, a) == CacheModel(cfg, b)
    && Payload(EndpointOf(a.path).value, Body(cfg, a).value) == Payload(EndpointOf(b.path).value, Body(cfg, b).value)
  }

  function PreimageOf(cfg: CacheConfig, r: Request): seq<Byte>
    requires Cacheable(cfg, r)
  {
    Preimage(CacheModel(cfg, r).s, Payload(EndpointOf(r.path).value, Body(cfg, r).value))
  }

  /** The digest tells these two requests apart, if there is anything to tell. */
  predicate DigestTells(cfg: CacheConfig, a: Request, b: Request) {
    Cacheable(cfg, a) && Cacheable(cfg, b) && cfg.digest(PreimageOf(cfg, a)) == cfg.digest(PreimageOf(cfg, b)) ==>
      PreimageOf(cfg, a) == PreimageOf(cfg, b)
  }

  /** Sharing a key means asking the same question, unless the digest collides on the two. */
  lemma SameKeyIffSameQuestion(cfg: CacheConfig, a: Request, b: Request)
    requires cfg.enabled && DigestTells(cfg, a, b)
    ensures RequestKey(cfg, a).Some? && RequestKey(cfg, a) == RequestKey(cfg, b) <==> SameQuestion(cfg, a, b)
  {
    hide Body, Payload, KeyOf, Preimage, CacheModel;
    if Cacheable(cfg, a) && Cacheable(cfg, b) {
      KeysAgreeIff(cfg.prefix, cfg.digest, EndpointOf(a.path).value, CacheModel(cfg, a).s, Body(cfg, a).value,
                   EndpointOf(b.path).value, CacheModel(cfg, b).s, Body(cfg, b).value);
    }
  }

  /** The upstream's storable answer to `a` serves `b` too. */
  predicate Serves(cfg: CacheConfig, upstream: Request -> JsonValue, a: Request, b: Request) {
    cfg.size(upstream(a)) <= cfg.maxEntryBytes ==>
      Finish(cfg, b, Response(200, Some(upstream(a)))) == Finish(cfg, b, Response(200, Some(upstream(b))))
  }

  /** With a digest that does not collide on the requests in play, however short it is: every hit is
      exact if and only if the upstream answers those requests alike that agree on endpoint, model
      and normalised input. */
  lemma CacheIsInvisibleIff(cfg: CacheConfig, upstream: Request -> JsonValue, inPlay: Request -> bool)
    requires cfg.enabled && forall a, b :: inPlay(a) && inPlay(b) ==> DigestTells(cfg, a, b)
    ensures Transparent(cfg, upstream, inPlay)
            <==> forall a, b :: inPlay(a) && inPlay(b) && SameQuestion(cfg, a, b) ==> Serves(cfg, upstream, a, b)
  {
    hide Transparent, SameQuestion, RequestKey, DigestTells, Finish;
    TransparentIff(cfg, upstream, inPlay);
    forall a, b | inPlay(a) && inPlay(b)
      ensures Interchangeable(cfg, upstream, a, b) <==> (SameQuestion(cfg, a, b) ==> Serves(cfg, upstream, a, b))
    {
      SameKeyIffSameQuestion(cfg, a, b);
    }
  }

  // ---- what the key leaves out ---------------------------------------------

  /** A body for /api/embed that asks for a number of dimensions. */
  function EmbedBody(dimensions: string): JsonValue
    requires NumberText(dimensions)
  {
    var model := Entry("model", Str("m"));
    var input := Entry("input", Str("text"));
    var asked := Entry("dimensions", Num(dimensions));
    assert [asked, input, model][1..] == [input, model] && [input, model][1..] == [model] && [model][1..] == [];
    assert PrintableEntries([]) && PrintableEntries([model]) && PrintableEntries([input, model]);
    assert PrintableEntries([asked, input, model]);
    Obj([asked, input, model])
  }

  /** The parser reads back the text of this value. */
  predicate ReadsBack(cfg: CacheConfig, v: JsonValue) {
    Render(v) != "" && cfg.parse(Render(v)) == Value(v)
  }

  lemma EmbedBodyFields(cfg: CacheConfig, dimensions: string, r: Request)
    requires NumberText(dimensions) && ReadsBack(cfg, EmbedBody(dimensions)) && r.raw == Render(EmbedBody(dimensions))
    ensures Body(cfg, r) == Some(map["model" := Str("m"), "input" := Str("text"), "dimensions" := Num(dimensions)])
    ensures CacheModel(cfg, r) == Str("m")
  {
    hide Render;
    var model := Entry("model", Str("m"));
    var input := Entry("input", Str("text"));
    var asked := Entry("dimensions", Num(dimensions));
    assert [asked, input, model][1..] == [input, model] && [input, model][1..] == [model] && [model][1..] == [];
    assert PrintableEntries([]) && PrintableEntries([model]) && PrintableEntries([input, model]);
    assert Dict([]) == map[] && Dict([model]) == map["model" := Str("m")];
    assert "model"[0] != "input"[0] && "input"[0] != "dimensions"[0] && "model"[0] != "dimensions"[0];
    assert Dict([input, model]) == map["model" := Str("m"), "input" := Str("text")];
  }

  lemma DimensionsShareKey(cfg: CacheConfig, a: Request, m: string, b: Request, n: string)
    requires cfg.enabled && NumberText(m) && NumberText(n) && a.path == "/api/embed" && b.path == "/api/embed"
    requires Body(cfg, a) == Some(map["model" := Str("m"), "input" := Str("text"), "dimensions" := Num(m)])
    requires Body(cfg, b) == Some(map["model" := Str("m"), "input" := Str("text"), "dimensions" := Num(n)])
    requires CacheModel(cfg, a) == CacheModel(cfg, b) == Str("m")
    ensures RequestKey(cfg, a).Some? && RequestKey(cfg, a) == RequestKey(cfg, b)
    ensures Field(Body(cfg, a).value, "dimensions") == Num(m) && Field(Body(cfg, b).value, "dimensions") == Num(n)
  {
    hide Body, CacheModel, Preimage;
    assert "model"[0] != "input"[0] && "input"[0] != "dimensions"[0] && "model"[0] != "dimensions"[0];
    assert Field(Body(cfg, a).value, "input") == Str("text") == Field(Body(cfg, b).value, "input");
  }

  /** Every other field of the body is ignored by the key: two embed requests that differ only
      in "dimensions" share an entry, and the second gets an embedding of the wrong size. The
      upstream answers with the size it was asked for. */
  lemma OtherFieldsAreIgnored(cfg: CacheConfig, m: string, n: string)
    returns (upstream: Request -> JsonValue, events: seq<Event>, b: Request)
    requires cfg.enabled && NumberText(m) && NumberText(n) && m != n && cfg.size(Num(m)) <= cfg.maxEntryBytes
    requires ReadsBack(cfg, EmbedBody(m)) && ReadsBack(cfg, EmbedBody(n))
    ensures AllFaithful(upstream, events) && b.raw == Render(EmbedBody(n))
    ensures !HitIsExact(cfg, upstream, events, b, Weather(None, None, Response(200, Some(upstream(b)))))
  {
    hide Render, EmbedBody, NumberText;
    upstream := (r: Request) => match Body(cfg, r) case Some(body) => Field(body, "dimensions") case None => Null;
    var a := Request("/api/embed", false, None, "", Render(EmbedBody(m)));
    b := Request("/api/embed", false, None, "", Render(EmbedBody(n)));
    EmbedBodyFields(cfg, m, a);
    EmbedBodyFields(cfg, n, b);
    hide Body, CacheModel, RequestKey, Field;
    DimensionsShareKey(cfg, a, m, b, n);
    assert upstream(a) == Num(m) && upstream(b) == Num(n);
    events := [Serve(a, Weather(None, None, Response(200, Some(upstream(a)))))];
    SharedEntryMisleads(cfg, upstream, a, b);
  }

  /** So are the method, the query and the headers: requests that differ only there share an entry. */
  lemma EnvelopesAreIgnored(cfg: CacheConfig, a: Request, envelope: string)
    ensures RequestKey(cfg, a.(envelope := envelope)) == RequestKey(cfg, a)
    ensures Cacheable(cfg, a) ==> SameQuestion(cfg, a, a.(envelope := envelope))
  {
  }

  /** A shared entry whose answers differ: the second request is answered wrongly. */
  lemma SharedEntryMisleads(cfg: CacheConfig, upstream: Request -> JsonValue, a: Request, b: Request)
    requires RequestKey(cfg, a).Some? && RequestKey(cfg, a) == RequestKey(cfg, b) && cfg.size(upstream(a)) <= cfg.maxEntryBytes
    requires Finish(cfg, b, Response(200, Some(upstream(a)))) != Finish(cfg, b, Response(200, Some(upstream(b))))
    ensures var events := [Serve(a, Weather(None, None, Response(200, Some(upstream(a)))))];
            && AllFaithful(upstream, events)
            && !HitIsExact(cfg, upstream, events, b, Weather(None, None, Response(200, Some(upstream(b)))))
  {
    hide RequestKey, Finish;
    RunOne(cfg, Serve(a, Weather(None, None, Response(200, Some(upstream(a))))));
  }
}
