/** The older, single-class web service (`Controller`): six maps keyed by
 *  request uuid, the REST endpoints with their HTTP status codes, the
 *  result threads of REST and WebSocket requests, and the WebSocket
 *  endpoints with their start/pause/stop replies. */
module WebController {
  import opened Wrappers
  import opened GeneratorConfig
  import opened ResultStream
  import opened ArtifactPaths
  import opened FileStore
  import Cleanup

  const OK: int := 200
  const ACCEPTED: int := 202
  const BAD_REQUEST: int := 400
  const NOT_FOUND: int := 404
  const INTERNAL_SERVER_ERROR: int := 500

  /** The `zip.maxAgeSeconds` default of the Controller. */
  const DEFAULT_MAX_ZIP_AGE_SECONDS: int := 60

  const UUID_REQUIRED := "UUID required"
  const REQUEST_NOT_FOUND := "Request not found (may be complete)"
  const NOT_STARTED := "Not started"

  /** What an endpoint hands back: a status without a body, a 200 with a
   *  text body, a 200 with the bytes of a ZIP file (modelled by the
   *  file's content), or an exception that escapes the endpoint. */
  datatype Response =
    | Code(status: int)
    | Answer(text: string)
    | Download(content: Content, fileName: string)
    | Thrown(exception: string)

  /** The request body of `/generate`: absent, or text that does or does
   *  not parse as a JSON object. */
  datatype Body = NoBody | BodyText(parsed: Option<JsonObject>)

  /** What a REST request's result thread captured when it was started:
   *  the request's uuid, the configuration it packs into the ZIP file, and
   *  the generator's population. */
  datatype RestRun = RestRun(uuid: string, configuration: JsonObject, population: int)

  /** Where a WebSocket request's result thread is: looping at index
   *  `idx`, or finished. */
  datatype WsThread = WsLooping(idx: int) | WsEnded

  /** The topic a request's records are pushed to. */
  function Destination(uuid: string): string {
    "/json/" + uuid
  }

  /** The messages a result thread pushes for `records`, in order. */
  function Publications(uuid: string, records: seq<string>): (r: seq<(string, Outgoing)>)
    ensures |r| == |records|
  {
    seq(|records|, i requires 0 <= i < |records| => (Destination(uuid), Record(records[i])))
  }

  lemma PublicationsSnoc(uuid: string, records: seq<string>, record: string)
    ensures Publications(uuid, records + [record]) == Publications(uuid, records) + [(Destination(uuid), Record(record))]
  {
  }

  /** The records a run of the REST result thread takes: those the leading
   *  fetches hand over, at most `population` of them. */
  function Taken(fetches: seq<Fetch>, population: int): (r: seq<string>)
    ensures |r| <= |fetches| && fetches[..|r|] == Persons(r)
    ensures population <= 0 ==> r == []
    ensures population > 0 ==> |r| <= population
    ensures |r| < population && |r| < |fetches| ==> !fetches[|r|].Person?
    decreases |fetches|
  {
    if population <= 0 || |fetches| == 0 || !fetches[0].Person? then []
    else
      var rest := Taken(fetches[1..], population - 1);
      assert fetches[..|rest| + 1] == [fetches[0]] + fetches[1..][..|rest|];
      [fetches[0].json] + rest
  }

  /** A prefix of records matched by the leading fetches, which ends at
   *  the population or at a fetch that hands over nothing, is what the
   *  thread takes. */
  lemma {:induction false} TakenIs(fetches: seq<Fetch>, population: int, records: seq<string>)
    requires |records| <= |fetches| && fetches[..|records|] == Persons(records)
    requires |records| == (if population <= 0 then 0 else population)
             || (|records| < population && |records| < |fetches| && !fetches[|records|].Person?)
    ensures Taken(fetches, population) == records
    decreases |records|
  {
    if |records| > 0 {
      assert fetches[0] == fetches[..|records|][0] == Person(records[0]);
      assert fetches[1..][..|records| - 1] == fetches[..|records|][1..];
      assert Persons(records)[1..] == Persons(records[1..]);
      TakenIs(fetches[1..], population - 1, records[1..]);
      assert records == [records[0]] + records[1..];
    }
  }

  // -------------------------------------------------------------- Controller

  class Controller {
    const zipDir: string
    const maxZipAgeSeconds: int
    const config: SyntheaConfig
    /** `uuidGenerateThreadMap`: requests whose generator thread is tracked. */
    var generateThreads: set<string>
    /** `uuidGeneratorMap`: the generator options of WebSocket requests. */
    var generators: map<string, GeneratorOptions>
    /** `uuidResultThreadMap`: requests whose result thread is tracked. */
    var resultThreads: set<string>
    /** `uuidResultQueueMap`: the records a REST client has not polled yet. */
    var resultQueues: map<string, seq<string>>
    /** `uuidStopFlagMap` and `uuidPauseFlagMap`. */
    var stopFlags: map<string, bool>
    var pauseFlags: map<string, bool>
    /** Every message pushed through the messaging template, with its topic. */
    var published: seq<(string, Outgoing)>

    /** A WebSocket request that has a result thread has both flags, every
     *  queue belongs to a tracked result thread, and no queue is over
     *  capacity. */
    ghost predicate Valid()
      reads this
    {
      (forall u :: u in generators && u in resultThreads ==> u in pauseFlags && u in stopFlags)
      && resultQueues.Keys <= resultThreads
      && (forall u :: u in resultQueues ==> |resultQueues[u]| <= MAX_RESULTS_QUEUE_SIZE)
    }

    /** A uuid none of the six maps holds, as a fresh random uuid is. */
    predicate Untracked(uuid: string)
      reads this
    {
      uuid !in generateThreads && uuid !in generators && uuid !in resultThreads
      && uuid !in resultQueues && uuid !in stopFlags && uuid !in pauseFlags
    }

    /** The four WebSocket endpoints find a request through its generator
     *  thread and its generator. */
    predicate Known(uuid: string)
      reads this
    {
      uuid in generateThreads && uuid in generators
    }

    /** Everything but the queues and the pushed messages. */
    ghost function Registry(): (set<string>, map<string, GeneratorOptions>, set<string>, map<string, bool>, map<string, bool>)
      reads this
    {
      (generateThreads, generators, resultThreads, stopFlags, pauseFlags)
    }

    /** The ZIP directory comes from `exporter.baseDirectory` (with the
     *  corrected separator handling, see ArtifactPaths.OutputBaseAsWritten);
     *  every map starts empty. */
    constructor(baseDir: Option<string>, maxZipAgeSeconds: int, config: SyntheaConfig)
      ensures zipDir == OutputDirs(baseDir).zipDir && this.maxZipAgeSeconds == maxZipAgeSeconds && this.config == config
      ensures generateThreads == {} && generators == map[] && resultThreads == {} && resultQueues == map[]
      ensures stopFlags == map[] && pauseFlags == map[] && published == []
      ensures Valid()
    {
      zipDir := OutputDirs(baseDir).zipDir;
      this.maxZipAgeSeconds := maxZipAgeSeconds;
      this.config := config;
      generateThreads := {};
      generators := map[];
      resultThreads := {};
      resultQueues := map[];
      stopFlags := map[];
      pauseFlags := map[];
      published := [];
    }

    /** `cleanupAll`: the uuid leaves all six maps; every other uuid keeps
     *  its entries. */
    method CleanupAll(uuid: string)
      requires Valid()
      modifies this
      ensures Valid() && Untracked(uuid)
      ensures generateThreads == old(generateThreads) - {uuid} && generators == old(generators) - {uuid}
      ensures resultThreads == old(resultThreads) - {uuid} && resultQueues == old(resultQueues) - {uuid}
      ensures stopFlags == old(stopFlags) - {uuid} && pauseFlags == old(pauseFlags) - {uuid}
      ensures published == old(published)
    {
      generateThreads := generateThreads - {uuid};
      generators := generators - {uuid};
      resultThreads := resultThreads - {uuid};
      resultQueues := resultQueues - {uuid};
      pauseFlags := pauseFlags - {uuid};
      stopFlags := stopFlags - {uuid};
    }

    /** The Controller's `updateSyntheaConfig`: every key is passed over
     *  (the white-list handling is commented out) and the request is marked
     *  as coming from a web client. */
    method MarkWebClient()
      modifies config
      ensures config.properties == old(config.properties)["exporter.webclient" := "true"]
    {
      config.Set("exporter.webclient", "true");
    }

    /** The Controller's `updateSyntheaConfig` as written: an object without
     *  keys has null `names()`, so the walk over them throws before the
     *  request is marked, where the evident intent is to mark it all the
     *  same (MarkWebClient). */
    method UpdateSyntheaConfigAsWritten(configuration: JsonObject) returns (r: Result<()>)
      modifies config
      ensures |configuration| == 0 ==> r == Err(NULL_POINTER) && config.properties == old(config.properties)
      ensures |configuration| > 0 ==> r == Ok(()) && config.properties == old(config.properties)["exporter.webclient" := "true"]
    {
      if |configuration| == 0 {
        return Err(NULL_POINTER);
      }
      MarkWebClient();
      return Ok(());
    }

    /** POST `/generate`.  Unparsable JSON is a 400 that changes nothing.
     *  Without a body the options stay null and storing the seed throws;
     *  an unreadable option throws a JSONException.  Otherwise the
     *  request gets a generator thread, an empty queue and a result
     *  thread, and the reply is its uuid. */
    method GenerateResults(body: Body, uuid: string, defaults: GeneratorOptions) returns (r: Response, run: Option<RestRun>)
      requires Valid() && Untracked(uuid)
      modifies this, config
      ensures Valid()
      ensures body.NoBody? ==> r == Thrown(NULL_POINTER)
      ensures body.BodyText? && body.parsed.None? ==> r == Code(BAD_REQUEST)
      ensures body.BodyText? && body.parsed.Some? && OptionsFrom(body.parsed.value, defaults).Err? ==> r == Thrown(JSON_EXCEPTION)
      ensures r.Answer? <==> body.BodyText? && body.parsed.Some? && OptionsFrom(body.parsed.value, defaults).Ok?
      ensures !r.Answer? ==> run == None && unchanged(this) && unchanged(config)
      ensures r.Answer? ==>
        var options := OptionsFrom(body.parsed.value, defaults).value;
        r == Answer(uuid)
        && run == Some(RestRun(uuid, body.parsed.value["seed" := JNumber(options.seed)], options.population))
        && config.properties == old(config.properties)["exporter.webclient" := "true"]
        && generateThreads == old(generateThreads) + {uuid} && resultThreads == old(resultThreads) + {uuid}
        && resultQueues == old(resultQueues)[uuid := []]
        && generators == old(generators) && stopFlags == old(stopFlags) && pauseFlags == old(pauseFlags)
        && published == old(published)
    {
      if body.NoBody? {
        return Thrown(NULL_POINTER), None;
      }
      if body.parsed.None? {
        return Code(BAD_REQUEST), None;
      }
      var configuration := body.parsed.value;
      var read := ConfigureGeneratorOptions(Some(configuration), defaults);
      if read.Err? {
        return Thrown(read.error), None;
      }
      var options := read.value.value;
      MarkWebClient();
      generateThreads := generateThreads + {uuid};
      resultQueues := resultQueues[uuid := []];
      resultThreads := resultThreads + {uuid};
      return Answer(uuid), Some(RestRun(uuid, configuration["seed" := JNumber(options.seed)], options.population));
    }

    /** The state of a REST result thread that started from the queues
     *  `queues0` (the request's own being `queue0`) and the pushed messages
     *  `published0`, and has since taken `taken`. */
    ghost predicate Streamed(uuid: string, queues0: map<string, seq<string>>, queue0: seq<string>,
                             published0: seq<(string, Outgoing)>, taken: seq<string>)
      reads this
    {
      resultQueues == queues0[uuid := Recent(queue0 + taken, MAX_RESULTS_QUEUE_SIZE)]
      && published == published0 + Publications(uuid, taken)
    }

    /** One record taken by a REST result thread: it joins the queue
     *  (which drops its oldest record when full) and is pushed to the
     *  request's topic. */
    method Deliver(uuid: string, person: string, ghost queues0: map<string, seq<string>>, ghost queue0: seq<string>,
                   ghost published0: seq<(string, Outgoing)>, ghost taken: seq<string>)
      requires Valid() && uuid in resultQueues && Streamed(uuid, queues0, queue0, published0, taken)
      modifies this
      ensures Valid() && uuid in resultQueues && Registry() == old(Registry())
      ensures Streamed(uuid, queues0, queue0, published0, taken + [person])
    {
      OfferKeepsRecentAfter(queue0, taken, person);
      PublicationsSnoc(uuid, taken, person);
      resultQueues := resultQueues[uuid := Offer(resultQueues[uuid], person)];
      published := published + [(Destination(uuid), Record(person))];
    }

    /** The end of a complete REST run: the generator thread is dropped and
     *  the ZIP file written. */
    method Archived(run: RestRun, fs: FileSystem, now: int, records: string)
      requires Valid()
      modifies this, fs
      ensures Valid()
      ensures generateThreads == old(generateThreads) - {run.uuid}
      ensures generators == old(generators) && resultThreads == old(resultThreads)
      ensures stopFlags == old(stopFlags) && pauseFlags == old(pauseFlags)
      ensures resultQueues == old(resultQueues) && published == old(published)
      ensures fs.files == old(fs.files)[ControllerZipFile(zipDir, run.uuid) :=
        FileEntry(Archive(ResultsArchive(run.uuid, run.configuration, records)),
                  CreatedAt(old(fs.files), ControllerZipFile(zipDir, run.uuid), now))]
    {
      generateThreads := generateThreads - {run.uuid};
      fs.Put(ControllerZipFile(zipDir, run.uuid), Archive(ResultsArchive(run.uuid, run.configuration, records)), now);
    }

    /** The result thread of a REST request, run to its end.  It takes the
     *  records the generator hands over, at most `population` of them,
     *  queueing and pushing each.  A complete run drops the generator
     *  thread and writes the ZIP file holding the configuration and the
     *  JSON array of every record in generation order.  An interrupt
     *  clears the request from all six maps; any other exception ends the
     *  thread with nothing more done. */
    method RestCollect(run: RestRun, fetches: seq<Fetch>, fs: FileSystem, now: int)
      requires Valid() && run.uuid in resultQueues && run.population <= |fetches|
      modifies this, fs
      ensures Valid()
      ensures published == old(published) + Publications(run.uuid, Taken(fetches, run.population))
      ensures |Taken(fetches, run.population)| == (if run.population <= 0 then 0 else run.population) ==>
        var u := run.uuid;
        var records := Taken(fetches, run.population);
        var zip := ControllerZipFile(zipDir, u);
        generateThreads == old(generateThreads) - {u}
        && resultQueues == old(resultQueues)[u := Recent(old(resultQueues[u]) + records, MAX_RESULTS_QUEUE_SIZE)]
        && fs.files == old(fs.files)[zip := FileEntry(Archive(ResultsArchive(u, run.configuration, JsonArray(records))),
                                                      CreatedAt(old(fs.files), zip, now))]
        && generators == old(generators) && resultThreads == old(resultThreads)
        && stopFlags == old(stopFlags) && pauseFlags == old(pauseFlags)
      ensures |Taken(fetches, run.population)| < run.population && fetches[|Taken(fetches, run.population)|].Interrupted? ==>
        var u := run.uuid;
        Untracked(u) && fs.files == old(fs.files)
        && generateThreads == old(generateThreads) - {u} && generators == old(generators) - {u}
        && resultThreads == old(resultThreads) - {u} && resultQueues == old(resultQueues) - {u}
        && stopFlags == old(stopFlags) - {u} && pauseFlags == old(pauseFlags) - {u}
      ensures |Taken(fetches, run.population)| < run.population && fetches[|Taken(fetches, run.population)|].Failure? ==>
        var u := run.uuid;
        Registry() == old(Registry()) && fs.files == old(fs.files)
        && resultQueues == old(resultQueues)[u := Recent(old(resultQueues[u]) + Taken(fetches, run.population), MAX_RESULTS_QUEUE_SIZE)]
    {
      var u := run.uuid;
      ghost var queues0 := resultQueues;
      ghost var queue0 := resultQueues[u];
      ghost var published0 := published;
      ghost var taken: seq<string> := [];
      assert queue0 + taken == queue0;
      var builder := "[";
      var idx := 0;
      while idx < run.population && fetches[idx].Person?
        invariant Valid() && u in resultQueues && Registry() == old(Registry()) && fs.files == old(fs.files)
        invariant idx == |taken| <= |fetches| && fetches[..idx] == Persons(taken)
        invariant idx == 0 || idx <= run.population
        invariant Streamed(u, queues0, queue0, published0, taken)
        invariant builder == "[" + ResultStream.Body(taken)
        decreases run.population - idx
      {
        var person := fetches[idx].json;
        Deliver(u, person, queues0, queue0, published0, taken);
        AppendRecord("[", taken, person);
        builder := builder + (Separator(idx) + "\n" + person);
        PersonsSnoc(fetches, idx, taken);
        taken := taken + [person];
        idx := idx + 1;
      }
      TakenIs(fetches, run.population, taken);
      if idx < run.population {
        if fetches[idx].Interrupted? {
          CleanupAll(u);
        }
        return;
      }
      Archived(run, fs, now, builder + "\n]");
    }

    /** GET `/zip/{uuid}`: 400 without a uuid; without the ZIP file, 202
     *  while a result thread is tracked and 404 otherwise; a file that
     *  cannot be read is a 500 that changes nothing; otherwise the file's
     *  bytes are returned, the file is deleted and the request leaves the
     *  result-thread and queue maps. */
    method GetResultsZip(uuid: Option<string>, fs: FileSystem, readFails: bool) returns (r: Response)
      requires Valid()
      modifies this, fs
      ensures Valid()
      ensures uuid.None? ==> r == Code(BAD_REQUEST)
      ensures uuid.Some? && ControllerZipFile(zipDir, uuid.value) !in old(fs.files) ==>
        r == Code(if uuid.value in old(resultThreads) then ACCEPTED else NOT_FOUND)
      ensures uuid.Some? && ControllerZipFile(zipDir, uuid.value) in old(fs.files) && readFails ==>
        r == Code(INTERNAL_SERVER_ERROR)
      ensures !r.Download? ==> unchanged(this) && fs.files == old(fs.files)
      ensures r.Download? <==> uuid.Some? && ControllerZipFile(zipDir, uuid.value) in old(fs.files) && !readFails
      ensures r.Download? ==>
        var path := ControllerZipFile(zipDir, uuid.value);
        r == Download(old(fs.files)[path].content, uuid.value + ".zip")
        && fs.files == old(fs.files) - {path}
        && resultThreads == old(resultThreads) - {uuid.value} && resultQueues == old(resultQueues) - {uuid.value}
        && generateThreads == old(generateThreads) && generators == old(generators)
        && stopFlags == old(stopFlags) && pauseFlags == old(pauseFlags) && published == old(published)
    {
      if uuid.None? {
        return Code(BAD_REQUEST);
      }
      var path := ControllerZipFile(zipDir, uuid.value);
      if path !in fs.files {
        if uuid.value in resultThreads {
          return Code(ACCEPTED);
        }
        return Code(NOT_FOUND);
      }
      if readFails {
        return Code(INTERNAL_SERVER_ERROR);
      }
      var contents := fs.files[path].content;
      fs.Delete(path);
      resultThreads := resultThreads - {uuid.value};
      resultQueues := resultQueues - {uuid.value};
      return Download(contents, uuid.value + ".zip");
    }

    /** The drain loop of `getResultsJson`: removes the queue's records one
     *  by one, writing them into a JSON array, oldest first. */
    method DrainQueue(uuid: string) returns (json: string)
      requires Valid() && uuid in resultQueues && |resultQueues[uuid]| > 0
      modifies this
      ensures Valid() && Registry() == old(Registry()) && published == old(published)
      ensures json == JsonArray(old(resultQueues[uuid]))
      ensures resultQueues == old(resultQueues)[uuid := []]
    {
      ghost var queue := resultQueues[uuid];
      var idx := 0;
      var builder := "[";
      while |resultQueues[uuid]| > 0
        invariant uuid in resultQueues && 0 <= idx <= |queue|
        invariant resultQueues == old(resultQueues)[uuid := queue[idx..]]
        invariant builder == "[" + ResultStream.Body(queue[..idx])
        invariant Registry() == old(Registry()) && published == old(published)
        decreases |resultQueues[uuid]|
      {
        var person := resultQueues[uuid][0];
        resultQueues := resultQueues[uuid := resultQueues[uuid][1..]];
        AppendRecord("[", queue[..idx], person);
        assert queue[..idx] + [person] == queue[..idx + 1];
        if idx > 0 {
          builder := builder + ",";
        }
        builder := builder + "\n" + person;
        idx := idx + 1;
      }
      json := builder + "\n]";
      assert queue[..idx] == queue;
    }

    /** GET `/json/{uuid}`: 400 without a uuid and 404 without a queue;
     *  "[]" for an empty queue; otherwise every queued record, oldest first,
     *  after which a request whose generator thread is gone leaves the
     *  result-thread and queue maps and any other keeps an empty queue. */
    method GetResultsJson(uuid: Option<string>) returns (r: Response)
      requires Valid()
      modifies this
      ensures Valid()
      ensures uuid.None? ==> r == Code(BAD_REQUEST) && unchanged(this)
      ensures uuid.Some? && uuid.value !in old(resultQueues) ==> r == Code(NOT_FOUND) && unchanged(this)
      ensures uuid.Some? && uuid.value in old(resultQueues) && old(resultQueues[uuid.value]) == [] ==>
        r == Answer("[]") && unchanged(this)
      ensures uuid.Some? && uuid.value in old(resultQueues) && old(resultQueues[uuid.value]) != [] ==>
        var u := uuid.value;
        r == Answer(JsonArray(old(resultQueues[u])))
        && generateThreads == old(generateThreads) && generators == old(generators)
        && stopFlags == old(stopFlags) && pauseFlags == old(pauseFlags) && published == old(published)
        && (u in old(generateThreads) ==> resultQueues == old(resultQueues)[u := []] && resultThreads == old(resultThreads))
        && (u !in old(generateThreads) ==> resultQueues == old(resultQueues) - {u} && resultThreads == old(resultThreads) - {u})
    {
      if uuid.None? {
        return Code(BAD_REQUEST);
      }
      var u := uuid.value;
      if u !in resultQueues {
        return Code(NOT_FOUND);
      }
      if |resultQueues[u]| == 0 {
        return Answer("[]");
      }
      var json := DrainQueue(u);
      if u !in generateThreads {
        resultThreads := resultThreads - {u};
        resultQueues := resultQueues - {u};
      } else {
        resultQueues := resultQueues[u := []];
      }
      return Answer(json);
    }

    /** DELETE `/terminate/{uuid}`: 400 without a uuid and 404 without a
     *  result thread.  A live result thread that does not register the
     *  interrupt gives a 500 with nothing changed; otherwise the request
     *  leaves the result-thread and queue maps.  A live generator thread
     *  that does not register the interrupt then gives a 500; otherwise the
     *  request leaves the generator-thread map, its ZIP file is deleted and
     *  the reply is 200. */
    method DeleteRequest(uuid: Option<string>, fs: FileSystem, resultResists: bool, generateResists: bool)
      returns (r: Response)
      requires Valid()
      modifies this, fs
      ensures Valid()
      ensures generators == old(generators) && stopFlags == old(stopFlags) && pauseFlags == old(pauseFlags)
      ensures published == old(published)
      ensures uuid.None? ==> r == Code(BAD_REQUEST) && unchanged(this) && fs.files == old(fs.files)
      ensures uuid.Some? && uuid.value !in old(resultThreads) ==> r == Code(NOT_FOUND) && unchanged(this) && fs.files == old(fs.files)
      ensures uuid.Some? && uuid.value in old(resultThreads) && resultResists ==>
        r == Code(INTERNAL_SERVER_ERROR) && unchanged(this) && fs.files == old(fs.files)
      ensures uuid.Some? && uuid.value in old(resultThreads) && !resultResists ==>
        var u := uuid.value;
        resultThreads == old(resultThreads) - {u} && resultQueues == old(resultQueues) - {u}
        && (u in old(generateThreads) && generateResists ==>
              r == Code(INTERNAL_SERVER_ERROR) && generateThreads == old(generateThreads) && fs.files == old(fs.files))
        && (!(u in old(generateThreads) && generateResists) ==>
              r == Code(OK) && generateThreads == old(generateThreads) - {u}
              && fs.files == old(fs.files) - {ControllerZipFile(zipDir, u)})
    {
      if uuid.None? {
        return Code(BAD_REQUEST);
      }
      var u := uuid.value;
      if u !in resultThreads {
        return Code(NOT_FOUND);
      }
      if resultResists {
        return Code(INTERNAL_SERVER_ERROR);
      }
      resultThreads := resultThreads - {u};
      resultQueues := resultQueues - {u};
      if u in generateThreads && generateResists {
        return Code(INTERNAL_SERVER_ERROR);
      }
      generateThreads := generateThreads - {u};
      var zip := ControllerZipFile(zipDir, u);
      if zip in fs.files {
        fs.Delete(zip);
      }
      return Code(OK);
    }

    /** The scheduled sweep, with the Controller's ZIP directory and age
     *  limit. */
    method DeleteExpiredZipFiles(fs: FileSystem, now: int, failing: set<string>, listingFails: bool)
      modifies fs
      ensures listingFails ==> fs.files == old(fs.files)
      ensures !listingFails ==> fs.files == Cleanup.Swept(old(fs.files), zipDir, maxZipAgeSeconds, now, failing)
    {
      Cleanup.DeleteExpiredZipFiles(fs, zipDir, maxZipAgeSeconds, now, failing, listingFails);
    }

    /** The WebSocket `/configure` endpoint.  A null configuration reaches
     *  `updateSyntheaConfig`, which dereferences it; unparsable text and
     *  unreadable options throw a JSONException.  Otherwise the request's
     *  generator and generator thread are registered (not started) and the
     *  reply carries the uuid and the configuration with its seed. */
    method WebSocketConfig(text: Body, uuid: string, defaults: GeneratorOptions) returns (r: Result<Outgoing>)
      requires Valid() && Untracked(uuid)
      modifies this, config
      ensures Valid()
      ensures text.NoBody? ==> r == Err(NULL_POINTER)
      ensures text.BodyText? && text.parsed.None? ==> r == Err(JSON_EXCEPTION)
      ensures text.BodyText? && text.parsed.Some? && OptionsFrom(text.parsed.value, defaults).Err? ==> r == Err(JSON_EXCEPTION)
      ensures r.Ok? <==> text.BodyText? && text.parsed.Some? && OptionsFrom(text.parsed.value, defaults).Ok?
      ensures r.Err? ==> unchanged(this) && unchanged(config)
      ensures r.Ok? ==>
        var options := OptionsFrom(text.parsed.value, defaults).value;
        r == Ok(Accepted(uuid, text.parsed.value["seed" := JNumber(options.seed)]))
        && config.properties == old(config.properties)["exporter.webclient" := "true"]
        && generators == old(generators)[uuid := options] && generateThreads == old(generateThreads) + {uuid}
        && resultThreads == old(resultThreads) && resultQueues == old(resultQueues)
        && stopFlags == old(stopFlags) && pauseFlags == old(pauseFlags) && published == old(published)
    {
      if text.NoBody? {
        return Err(NULL_POINTER);
      }
      if text.parsed.None? {
        return Err(JSON_EXCEPTION);
      }
      var configuration := text.parsed.value;
      var read := ConfigureGeneratorOptions(Some(configuration), defaults);
      if read.Err? {
        return Err(read.error);
      }
      var options := read.value.value;
      MarkWebClient();
      generators := generators[uuid := options];
      generateThreads := generateThreads + {uuid};
      return Ok(Accepted(uuid, configuration["seed" := JNumber(options.seed)]));
    }

    /** The WebSocket `/start` endpoint: the first call on a known request
     *  starts its threads with both flags cleared; a later call clears a
     *  set pause flag, or else reports that the request already runs. */
    method WebSocketStart(uuid: Option<string>) returns (reply: Outgoing)
      requires Valid()
      modifies this
      ensures Valid()
      ensures generateThreads == old(generateThreads) && generators == old(generators)
      ensures resultQueues == old(resultQueues) && published == old(published)
      ensures uuid.None? ==> reply == Error(UUID_REQUIRED) && unchanged(this)
      ensures uuid.Some? && !old(Known(uuid.value)) ==> reply == Error(REQUEST_NOT_FOUND) && unchanged(this)
      ensures reply == Status("Started") <==> uuid.Some? && old(Known(uuid.value)) && uuid.value !in old(resultThreads)
      ensures reply == Status("Started") ==>
        resultThreads == old(resultThreads) + {uuid.value}
        && pauseFlags == old(pauseFlags)[uuid.value := false] && stopFlags == old(stopFlags)[uuid.value := false]
      ensures reply == Status("Restarted") <==>
        uuid.Some? && old(Known(uuid.value)) && uuid.value in old(resultThreads) && old(pauseFlags[uuid.value])
      ensures reply == Status("Restarted") ==>
        pauseFlags == old(pauseFlags)[uuid.value := false] && resultThreads == old(resultThreads) && stopFlags == old(stopFlags)
      ensures reply == Status("Already started") <==>
        uuid.Some? && old(Known(uuid.value)) && uuid.value in old(resultThreads) && !old(pauseFlags[uuid.value])
      ensures reply == Status("Already started") ==> unchanged(this)
    {
      if uuid.None? {
        return Error(UUID_REQUIRED);
      }
      var u := uuid.value;
      if !Known(u) {
        return Error(REQUEST_NOT_FOUND);
      }
      if u !in resultThreads {
        resultThreads := resultThreads + {u};
        pauseFlags := pauseFlags[u := false];
        stopFlags := stopFlags[u := false];
        return Status("Started");
      }
      if pauseFlags[u] {
        pauseFlags := pauseFlags[u := false];
        return Status("Restarted");
      }
      return Status("Already started");
    }

    /** The WebSocket `/pause` endpoint: errors for a missing uuid, an
     *  unknown request and one not started; otherwise the pause flag is set
     *  unless it already was. */
    method WebSocketPause(uuid: Option<string>) returns (reply: Outgoing)
      requires Valid()
      modifies this
      ensures Valid()
      ensures Registry().0 == old(Registry()).0 && generators == old(generators) && resultThreads == old(resultThreads)
      ensures stopFlags == old(stopFlags) && resultQueues == old(resultQueues) && published == old(published)
      ensures uuid.None? ==> reply == Error(UUID_REQUIRED)
      ensures uuid.Some? && !old(Known(uuid.value)) ==> reply == Error(REQUEST_NOT_FOUND)
      ensures uuid.Some? && old(Known(uuid.value)) && uuid.value !in old(resultThreads) ==> reply == Error(NOT_STARTED)
      ensures reply == Status("Paused") <==>
        uuid.Some? && old(Known(uuid.value)) && uuid.value in old(resultThreads) && !old(pauseFlags[uuid.value])
      ensures reply == Status("Already paused") <==>
        uuid.Some? && old(Known(uuid.value)) && uuid.value in old(resultThreads) && old(pauseFlags[uuid.value])
      ensures pauseFlags == if reply == Status("Paused") then old(pauseFlags)[uuid.value := true] else old(pauseFlags)
    {
      if uuid.None? {
        return Error(UUID_REQUIRED);
      }
      var u := uuid.value;
      if !Known(u) {
        return Error(REQUEST_NOT_FOUND);
      }
      if u !in resultThreads {
        return Error(NOT_STARTED);
      }
      if pauseFlags[u] {
        return Status("Already paused");
      }
      pauseFlags := pauseFlags[u := true];
      return Status("Paused");
    }

    /** The WebSocket `/stop` endpoint: the same checks as `/pause`, then
     *  the stop flag is set unless it already was. */
    method WebSocketStop(uuid: Option<string>) returns (reply: Outgoing)
      requires Valid()
      modifies this
      ensures Valid()
      ensures generateThreads == old(generateThreads) && generators == old(generators) && resultThreads == old(resultThreads)
      ensures pauseFlags == old(pauseFlags) && resultQueues == old(resultQueues) && published == old(published)
      ensures uuid.None? ==> reply == Error(UUID_REQUIRED)
      ensures uuid.Some? && !old(Known(uuid.value)) ==> reply == Error(REQUEST_NOT_FOUND)
      ensures uuid.Some? && old(Known(uuid.value)) && uuid.value !in old(resultThreads) ==> reply == Error(NOT_STARTED)
      ensures reply == Status("Stopped") <==>
        uuid.Some? && old(Known(uuid.value)) && uuid.value in old(resultThreads) && !old(stopFlags[uuid.value])
      ensures reply == Status("Already stopped") <==>
        uuid.Some? && old(Known(uuid.value)) && uuid.value in old(resultThreads) && old(stopFlags[uuid.value])
      ensures stopFlags == if reply == Status("Stopped") then old(stopFlags)[uuid.value := true] else old(stopFlags)
    {
      if uuid.None? {
        return Error(UUID_REQUIRED);
      }
      var u := uuid.value;
      if !Known(u) {
        return Error(REQUEST_NOT_FOUND);
      }
      if u !in resultThreads {
        return Error(NOT_STARTED);
      }
      if stopFlags[u] {
        return Status("Already stopped");
      }
      stopFlags := stopFlags[u := true];
      return Status("Stopped");
    }

    /** One pass of a WebSocket request's result thread at loop index `idx`;
     *  `event` is what happens where the thread blocks next.  Past the
     *  population the thread clears the request and pushes "Completed".
     *  While paused it sleeps, and an interrupt there clears the request.
     *  Once stopped it clears the request.  Otherwise it takes one record
     *  and pushes it, or the generator is interrupted (the request is
     *  cleared) or fails (the thread just ends). */
    method WsCollectorStep(uuid: string, idx: int, event: Fetch) returns (next: WsThread)
      requires Valid() && uuid in generators && uuid in pauseFlags && uuid in stopFlags
      modifies this
      ensures Valid()
      ensures idx >= old(generators[uuid].population) ==>
        next == WsEnded && Untracked(uuid) && published == old(published) + [(Destination(uuid), WsStatus("Completed"))]
      ensures idx < old(generators[uuid].population) && old(pauseFlags[uuid]) ==>
        if event.Interrupted? then next == WsEnded && Untracked(uuid) && published == old(published)
        else next == WsLooping(idx) && unchanged(this)
      ensures idx < old(generators[uuid].population) && !old(pauseFlags[uuid]) && old(stopFlags[uuid]) ==>
        next == WsEnded && Untracked(uuid) && published == old(published)
      ensures idx < old(generators[uuid].population) && !old(pauseFlags[uuid]) && !old(stopFlags[uuid]) ==>
        match event
        case Person(p) => next == WsLooping(idx + 1) && Registry() == old(Registry()) && resultQueues == old(resultQueues)
                          && published == old(published) + [(Destination(uuid), Record(p))]
        case Interrupted => next == WsEnded && Untracked(uuid) && published == old(published)
        case Failure => next == WsEnded && unchanged(this)
      ensures Untracked(uuid) ==>
        generateThreads == old(generateThreads) - {uuid} && generators == old(generators) - {uuid}
        && resultThreads == old(resultThreads) - {uuid} && resultQueues == old(resultQueues) - {uuid}
        && stopFlags == old(stopFlags) - {uuid} && pauseFlags == old(pauseFlags) - {uuid}
    {
      if idx >= generators[uuid].population {
        CleanupAll(uuid);
        published := published + [(Destination(uuid), WsStatus("Completed"))];
        return WsEnded;
      }
      if pauseFlags[uuid] {
        if event.Interrupted? {
          CleanupAll(uuid);
          return WsEnded;
        }
        return WsLooping(idx);
      }
      if stopFlags[uuid] {
        CleanupAll(uuid);
        return WsEnded;
      }
      match event
      case Person(p) =>
        published := published + [(Destination(uuid), Record(p))];
        return WsLooping(idx + 1);
      case Interrupted =>
        CleanupAll(uuid);
        return WsEnded;
      case Failure =>
        return WsEnded;
    }
  }
}
