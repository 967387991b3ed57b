/** The web service's request life cycle: a Request with its flags, result
 *  queue and collector, the RequestService registry, and the SocketHandler
 *  that answers WebSocket commands.  The three classes refer to one another,
 *  so they share a module.  Each collector iteration and each command is a
 *  method run to completion; the generator is the sequence of what its
 *  `getNextPerson` calls return. */
module Webservice {
  import opened Wrappers
  import opened JavaText
  import opened GeneratorConfig
  import opened ResultStream
  import opened ArtifactPaths
  import opened FileStore

  /** A WebSocket session, compared by identity. */
  datatype Session = Session(id: nat)

  /** The configuration text handed to `createRequest`: a Java null, or
   *  text that `new JSONObject(text)` parses to `Some(object)` or rejects. */
  datatype ConfigText = NoConfiguration | ConfigurationText(parsed: Option<JsonObject>)

  /** Where a request's result thread is: not yet started, started but not
   *  yet writing, inside the loop, or ended by the stop flag, by an
   *  exception, or normally. */
  datatype Phase = Idle | Launched | Collecting | Stopped | Aborted | Completed

  /** The three flags a command inspects. */
  datatype Snapshot = Snapshot(started: bool, stopped: bool, finished: bool)

  /** How `handleTextMessage` ended: normally, or with an exception that
   *  escapes it. */
  datatype Outcome = Handled | Thrown(exception: string)

  /** Each generated record, as pushed to the client. */
  function RecordMessages(records: seq<string>): (r: seq<Outgoing>)
    ensures |r| == |records|
  {
    seq(|records|, i requires 0 <= i < |records| => Record(records[i]))
  }

  /** What `sendMessage(uuid, …)` delivers: to the session mapped to the
   *  uuid, or nothing at all when none is. */
  function Notify(sessions: map<string, Session>, uuid: string, messages: seq<Outgoing>): (r: seq<(Session, Outgoing)>)
    ensures uuid !in sessions ==> r == []
    ensures uuid in sessions ==> |r| == |messages|
  {
    if uuid in sessions then seq(|messages|, i requires 0 <= i < |messages| => (sessions[uuid], messages[i])) else []
  }

  lemma NotifyAppend(sessions: map<string, Session>, uuid: string, a: seq<Outgoing>, b: seq<Outgoing>)
    ensures Notify(sessions, uuid, a + b) == Notify(sessions, uuid, a) + Notify(sessions, uuid, b)
  {
  }

  /** Pushing one more record appends one more message to what the
   *  session has been sent. */
  lemma NotifyRecordsSnoc(sessions: map<string, Session>, uuid: string, records: seq<string>, record: string)
    ensures Notify(sessions, uuid, RecordMessages(records + [record]))
         == Notify(sessions, uuid, RecordMessages(records)) + Notify(sessions, uuid, [Record(record)])
  {
    assert RecordMessages(records + [record]) == RecordMessages(records) + [Record(record)];
    NotifyAppend(sessions, uuid, RecordMessages(records), [Record(record)]);
  }

  // ----------------------------------------------------------------- Request

  /** One generation request. */
  class Request {
    const uuid: string
    const service: RequestService
    const jsonPath: string
    const zipPath: string
    var configuration: JsonObject
    var options: GeneratorOptions
    var resultQueue: seq<string>
    var stopFlag: bool
    var startedFlag: bool
    var finishedFlag: bool
    /** The result thread: where it is and how many records it took. */
    var phase: Phase
    var idx: int
    /** Every record the result thread has taken, oldest first. */
    ghost var produced: seq<string>
    /** Whatever the JSON results file held before the thread opened it. */
    ghost var jsonPrefix: string

    ghost predicate Valid()
      reads this
    {
      jsonPath != zipPath
      && |resultQueue| <= MAX_RESULTS_QUEUE_SIZE
      && IsSuffix(resultQueue, produced)
      && idx == |produced|
      && (finishedFlag <==> phase == Completed)
      && (phase != Idle <==> startedFlag)
      && ((phase.Idle? || phase.Launched?) ==> produced == [])
    }

    /** The request's JSON results file and its ZIP file
     *  (`getZipFileObject(uuid)`, taken with type "fhir"), fixed when the
     *  request is made. */
    ghost predicate Named() {
      IsUuid(uuid)
      && jsonPath == JsonFileObject(service.dirs, Some(uuid)).value
      && zipPath == ZipFileObject(service.dirs, Some(uuid), "fhir").value
    }

    /** `start` took effect: the request is launched, and nothing else it
     *  holds has changed. */
    twostate predicate StartedOnly()
      reads this
    {
      startedFlag && phase == Launched
      && stopFlag == old(stopFlag) && finishedFlag == old(finishedFlag)
      && resultQueue == old(resultQueue) && idx == old(idx) && produced == old(produced)
      && configuration == old(configuration) && options == old(options) && jsonPrefix == old(jsonPrefix)
    }

    /** `stop` took effect: the stop flag is set, and nothing else the
     *  request holds has changed. */
    twostate predicate StoppedOnly()
      reads this
    {
      stopFlag
      && startedFlag == old(startedFlag) && finishedFlag == old(finishedFlag) && phase == old(phase)
      && resultQueue == old(resultQueue) && idx == old(idx) && produced == old(produced)
      && configuration == old(configuration) && options == old(options) && jsonPrefix == old(jsonPrefix)
    }

    /** Everything the request holds apart from its result queue. */
    ghost function Fields(): (Phase, bool, bool, bool, int, seq<string>, JsonObject, GeneratorOptions, string)
      reads this
    {
      (phase, stopFlag, startedFlag, finishedFlag, idx, produced, configuration, options, jsonPrefix)
    }

    /** While the loop runs, the results file holds "[" and every record
     *  taken so far in the array framing. */
    ghost predicate Writing(fs: FileSystem)
      reads this, fs
    {
      phase == Collecting ==>
        jsonPath in fs.files && fs.files[jsonPath].content == Text(jsonPrefix + "[" + Body(produced))
    }

    constructor(uuid: string, service: RequestService, defaults: GeneratorOptions)
      requires IsUuid(uuid)
      ensures this.uuid == uuid && this.service == service
      ensures configuration == map[] && options == defaults && resultQueue == []
      ensures !stopFlag && !startedFlag && !finishedFlag && phase == Idle && idx == 0 && produced == []
      ensures Valid() && Named()
    {
      this.uuid := uuid;
      this.service := service;
      jsonPath := JsonFileObject(service.dirs, Some(uuid)).value;
      zipPath := ZipFileObject(service.dirs, Some(uuid), "fhir").value;
      JsonFileIsNotZipFile(service.dirs, uuid);
      configuration := map[];
      options := defaults;
      resultQueue := [];
      stopFlag := false;
      startedFlag := false;
      finishedFlag := false;
      phase := Idle;
      idx := 0;
      produced := [];
      jsonPrefix := "";
    }

    /** `configure`: marks the simulator as driven by a web client, reads
     *  the generator options, keeps the given configuration and records the
     *  seed in it.  Unreadable options throw a JSONException; a null
     *  configuration leaves the options null and storing the seed throws. */
    method Configure(configuration: Option<JsonObject>, defaults: GeneratorOptions) returns (r: Result<()>)
      requires Valid()
      modifies this, service.config
      ensures Valid()
      ensures service.config.properties == old(service.config.properties)["exporter.webclient" := "true"]
      ensures r.Ok? <==> configuration.Some? && OptionsFrom(configuration.value, defaults).Ok?
      ensures r.Err? ==> r.error == (if configuration.None? then NULL_POINTER else JSON_EXCEPTION)
      ensures r.Ok? ==> options == OptionsFrom(configuration.value, defaults).value
      ensures r.Ok? ==> this.configuration == configuration.value["seed" := JNumber(options.seed)]
      ensures r.Err? ==> this.configuration == old(this.configuration) && options == old(options)
      ensures resultQueue == old(resultQueue) && stopFlag == old(stopFlag) && startedFlag == old(startedFlag)
      ensures finishedFlag == old(finishedFlag) && phase == old(phase) && idx == old(idx) && produced == old(produced)
    {
      service.config.Set("exporter.webclient", "true");
      var read := ConfigureGeneratorOptions(configuration, defaults);
      if read.Err? {
        return Err(read.error);
      }
      if read.value.None? {
        return Err(NULL_POINTER);
      }
      options := read.value.value;
      this.configuration := configuration.value["seed" := JNumber(options.seed)];
      return Ok(());
    }

    /** `start`: launches the threads and sets the started flag.  A thread
     *  cannot be started twice, so the request must not have been. */
    method Start()
      requires Valid() && !startedFlag
      modifies this
      ensures Valid() && StartedOnly()
    {
      startedFlag := true;
      phase := Launched;
    }

    /** `stop`: sets the stop flag, which the result thread checks before
     *  each record. */
    method Stop()
      requires Valid()
      modifies this
      ensures Valid() && StoppedOnly()
    {
      stopFlag := true;
    }

    /** The result thread opens the results file for appending and writes "[". */
    method CollectorOpen(fs: FileSystem, now: int)
      requires Valid() && phase == Launched
      modifies this, fs
      ensures Valid() && phase == Collecting && Writing(fs)
      ensures jsonPrefix == TextOf(old(fs.files), jsonPath)
      ensures fs.files == old(fs.files)[jsonPath := FileEntry(Text(jsonPrefix + "["), CreatedAt(old(fs.files), jsonPath, now))]
      ensures stopFlag == old(stopFlag) && startedFlag == old(startedFlag) && finishedFlag == old(finishedFlag)
      ensures resultQueue == old(resultQueue) && idx == old(idx) && produced == old(produced)
      ensures configuration == old(configuration) && options == old(options)
    {
      jsonPrefix := TextOf(fs.files, jsonPath);
      fs.Append(jsonPath, "[", now);
      phase := Collecting;
    }

    /** The stop branch of the loop: the results and ZIP files are deleted
     *  and the request is deregistered; the request does not finish. */
    method CollectorHalt(fs: FileSystem)
      requires Valid() && phase == Collecting
      modifies this, fs, service
      ensures Valid() && phase == Stopped && !finishedFlag
      ensures stopFlag == old(stopFlag) && startedFlag == old(startedFlag)
      ensures resultQueue == old(resultQueue) && idx == old(idx) && produced == old(produced)
      ensures configuration == old(configuration) && options == old(options) && jsonPrefix == old(jsonPrefix)
      ensures fs.files == old(fs.files) - {jsonPath, zipPath}
      ensures service.requests == old(service.requests) - {uuid}
    {
      var json := jsonPath;
      var zip := zipPath;
      fs.Delete(json);
      fs.Delete(zip);
      service.RemoveRequest(uuid);
      phase := Stopped;
    }

    /** The exception branches of the loop: the request is deregistered and
     *  the thread ends without finishing it. */
    method CollectorAbort()
      requires Valid() && phase == Collecting
      modifies this, service
      ensures Valid() && phase == Aborted && !finishedFlag
      ensures stopFlag == old(stopFlag) && startedFlag == old(startedFlag)
      ensures resultQueue == old(resultQueue) && idx == old(idx) && produced == old(produced)
      ensures configuration == old(configuration) && options == old(options) && jsonPrefix == old(jsonPrefix)
      ensures service.requests == old(service.requests) - {uuid}
    {
      service.RemoveRequest(uuid);
      phase := Aborted;
    }

    /** The record is appended to the results file. */
    method WriteRecord(person: string, fs: FileSystem, now: int)
      requires Valid() && Writing(fs) && phase == Collecting
      modifies fs
      ensures fs.files == old(fs.files)[jsonPath := FileEntry(Text(jsonPrefix + "[" + Body(produced + [person])), old(fs.files)[jsonPath].created)]
    {
      AppendRecord(jsonPrefix + "[", produced, person);
      fs.Append(jsonPath, Separator(idx) + "\n" + person, now);
    }

    /** The record is offered to the result queue. */
    method Enqueue(person: string)
      requires Valid() && phase == Collecting
      modifies this
      ensures Valid()
      ensures phase == old(phase) && stopFlag == old(stopFlag) && startedFlag == old(startedFlag) && finishedFlag == old(finishedFlag)
      ensures configuration == old(configuration) && options == old(options) && jsonPrefix == old(jsonPrefix)
      ensures produced == old(produced) + [person]
      ensures resultQueue == Offer(old(resultQueue), person)
    {
      OfferKeepsSuffix(resultQueue, produced, person);
      resultQueue := Offer(resultQueue, person);
      idx := idx + 1;
      produced := produced + [person];
    }

    /** A record taken from the generator is offered to the result queue
     *  and appended to the results file. */
    method Keep(person: string, fs: FileSystem, now: int)
      requires Valid() && Writing(fs) && phase == Collecting
      modifies this, fs
      ensures Valid() && Writing(fs) && phase == Collecting
      ensures stopFlag == old(stopFlag) && startedFlag == old(startedFlag) && finishedFlag == old(finishedFlag)
      ensures configuration == old(configuration) && options == old(options) && jsonPrefix == old(jsonPrefix)
      ensures produced == old(produced) + [person]
      ensures resultQueue == Offer(old(resultQueue), person)
      ensures fs.files == old(fs.files)[jsonPath := FileEntry(Text(jsonPrefix + "[" + Body(produced)), old(fs.files)[jsonPath].created)]
    {
      WriteRecord(person, fs, now);
      Enqueue(person);
    }

    /** A record taken from the generator is pushed to the client, then
     *  kept (Keep). */
    method CollectorTake(person: string, fs: FileSystem, now: int)
      requires Valid() && Writing(fs) && phase == Collecting
      modifies this, fs, service.handler
      ensures Valid() && Writing(fs) && phase == Collecting
      ensures stopFlag == old(stopFlag) && startedFlag == old(startedFlag) && finishedFlag == old(finishedFlag)
      ensures configuration == old(configuration) && options == old(options) && jsonPrefix == old(jsonPrefix)
      ensures produced == old(produced) + [person]
      ensures resultQueue == Offer(old(resultQueue), person)
      ensures fs.files == old(fs.files)[jsonPath := FileEntry(Text(jsonPrefix + "[" + Body(produced)), old(fs.files)[jsonPath].created)]
      ensures service.handler.sessions == old(service.handler.sessions)
      ensures service.handler.sent == old(service.handler.sent) + Notify(old(service.handler.sessions), uuid, [Record(person)])
    {
      service.SendMessage(uuid, Record(person));
      Keep(person, fs, now);
    }

    /** One iteration of the result thread's loop: the stop flag is checked
     *  first (CollectorHalt), then one record is taken (CollectorTake) or
     *  the generator fails (CollectorAbort). */
    method CollectorStep(fetch: Fetch, fs: FileSystem, now: int)
      requires Valid() && Writing(fs) && phase == Collecting && idx < options.population
      modifies this, fs, service, service.handler
      ensures Valid() && Writing(fs)
      ensures stopFlag == old(stopFlag) && startedFlag == old(startedFlag) && !finishedFlag
      ensures configuration == old(configuration) && options == old(options) && jsonPrefix == old(jsonPrefix)
      ensures service.handler.sessions == old(service.handler.sessions)
      ensures old(stopFlag) ==>
        phase == Stopped && produced == old(produced) && resultQueue == old(resultQueue)
        && fs.files == old(fs.files) - {jsonPath, zipPath}
        && service.requests == old(service.requests) - {uuid}
        && service.handler.sent == old(service.handler.sent)
      ensures !old(stopFlag) && fetch.Person? ==>
        phase == Collecting && produced == old(produced) + [fetch.json]
        && resultQueue == Offer(old(resultQueue), fetch.json)
        && fs.files == old(fs.files)[jsonPath := FileEntry(Text(jsonPrefix + "[" + Body(produced)), old(fs.files)[jsonPath].created)]
        && service.requests == old(service.requests)
        && service.handler.sent == old(service.handler.sent) + Notify(old(service.handler.sessions), uuid, [Record(fetch.json)])
      ensures !old(stopFlag) && !fetch.Person? ==>
        phase == Aborted && produced == old(produced) && resultQueue == old(resultQueue)
        && fs.files == old(fs.files)
        && service.requests == old(service.requests) - {uuid}
        && service.handler.sent == old(service.handler.sent)
    {
      if stopFlag {
        CollectorHalt(fs);
      } else if !fetch.Person? {
        CollectorAbort();
      } else {
        CollectorTake(fetch.json, fs, now);
      }
    }

    /** The results file gets its closing "\n]", which completes the JSON
     *  array of every record taken. */
    method CloseResults(fs: FileSystem, now: int) returns (results: string)
      requires Writing(fs) && phase == Collecting
      modifies fs
      ensures results == jsonPrefix + JsonArray(produced)
      ensures fs.files == old(fs.files)[jsonPath := FileEntry(Text(results), old(fs.files)[jsonPath].created)]
    {
      fs.Append(jsonPath, "\n]", now);
      results := TextOf(fs.files, jsonPath);
    }

    /** The configuration and the results go into the ZIP file, and the
     *  results file is deleted. */
    method ArchiveResults(fs: FileSystem, results: string, now: int)
      requires jsonPath != zipPath
      modifies fs
      ensures fs.files == old(fs.files)[zipPath := FileEntry(Archive(ResultsArchive(uuid, configuration, results)),
                                                             CreatedAt(old(fs.files), zipPath, now))] - {jsonPath}
    {
      fs.Put(zipPath, Archive(ResultsArchive(uuid, configuration, results)), now);
      fs.Delete(jsonPath);
    }

    /** After the last record: closes the array, marks the request
     *  finished, tells the client, packs the configuration and the results
     *  into the ZIP file and deletes the results file. */
    method CollectorFinish(fs: FileSystem, now: int)
      requires Valid() && Writing(fs) && phase == Collecting && idx >= options.population
      modifies this, fs, service.handler
      ensures Valid() && phase == Completed && finishedFlag
      ensures stopFlag == old(stopFlag) && startedFlag == old(startedFlag)
      ensures resultQueue == old(resultQueue) && idx == old(idx) && produced == old(produced)
      ensures configuration == old(configuration) && options == old(options) && jsonPrefix == old(jsonPrefix)
      ensures fs.files == old(fs.files)[zipPath := FileEntry(Archive(ResultsArchive(uuid, configuration, jsonPrefix + JsonArray(produced))),
                                                                 CreatedAt(old(fs.files), zipPath, now))] - {jsonPath}
      ensures service.handler.sessions == old(service.handler.sessions)
      ensures service.handler.sent == old(service.handler.sent) + Notify(old(service.handler.sessions), uuid, [Status("Completed")])
    {
      ghost var files0 := fs.files;
      var results := CloseResults(fs, now);
      ghost var closed := fs.files[jsonPath];
      finishedFlag := true;
      phase := Completed;
      service.SendMessage(uuid, Status("Completed"));
      ArchiveResults(fs, results, now);
      assert CreatedAt(files0[jsonPath := closed], zipPath, now) == CreatedAt(files0, zipPath, now);
      WriteThenDelete(files0, jsonPath, closed, zipPath,
        FileEntry(Archive(ResultsArchive(uuid, configuration, results)), CreatedAt(files0, zipPath, now)));
    }

    /** What the records taken since the loop started have done: the queue
     *  holds the most recent of them, the results file holds all of them
     *  after what it held then, and each has been pushed to the client. */
    ghost predicate Collected(fs: FileSystem, queue0: seq<string>, files0: map<string, FileEntry>,
                              sessions0: map<string, Session>, sent0: seq<(Session, Outgoing)>)
      reads this, fs, service.handler
    {
      jsonPath in files0
      && resultQueue == Recent(queue0 + produced, MAX_RESULTS_QUEUE_SIZE)
      && fs.files == files0[jsonPath := FileEntry(Text(jsonPrefix + "[" + Body(produced)), files0[jsonPath].created)]
      && service.handler.sessions == sessions0
      && service.handler.sent == sent0 + Notify(sessions0, uuid, RecordMessages(produced))
    }

    /** The configuration and flags a running collector leaves alone. */
    ghost function Setup(): (bool, bool, bool, JsonObject, GeneratorOptions, string)
      reads this
    {
      (stopFlag, startedFlag, finishedFlag, configuration, options, jsonPrefix)
    }

    /** One pass of the loop: a record is taken and `Collected` still holds. */
    method CollectOne(person: string, fs: FileSystem, now: int, ghost queue0: seq<string>, ghost files0: map<string, FileEntry>,
                      ghost sessions0: map<string, Session>, ghost sent0: seq<(Session, Outgoing)>)
      requires Valid() && Writing(fs) && phase == Collecting && Collected(fs, queue0, files0, sessions0, sent0)
      modifies this, fs, service.handler
      ensures Valid() && Writing(fs) && phase == Collecting && Collected(fs, queue0, files0, sessions0, sent0)
      ensures Setup() == old(Setup()) && produced == old(produced) + [person]
    {
      ghost var before := produced;
      CollectorTake(person, fs, now);
      OfferKeepsRecentAfter(queue0, before, person);
      Rewrite(files0, jsonPath, FileEntry(Text(jsonPrefix + "[" + Body(before)), files0[jsonPath].created),
              FileEntry(Text(jsonPrefix + "[" + Body(produced)), files0[jsonPath].created));
      NotifyRecordsSnoc(sessions0, uuid, before, person);
      Associative(sent0, Notify(sessions0, uuid, RecordMessages(before)), Notify(sessions0, uuid, [Record(person)]));
    }

    /** The loop of the result thread, entered with no record taken, for a
     *  run in which nobody stops the request: records are taken until
     *  `population` of them are in or the generator fails.  The records
     *  taken are exactly those the leading fetches hand over; the queue
     *  holds the most recent of them; each is in the results file and has
     *  been pushed to the client. */
    method CollectRecords(fetches: seq<Fetch>, fs: FileSystem, now: int)
      requires Valid() && Writing(fs) && phase == Collecting && !stopFlag && produced == []
      requires options.population <= |fetches|
      modifies this, fs, service, service.handler
      ensures Valid() && Setup() == old(Setup())
      ensures |produced| <= |fetches| && fetches[..|produced|] == Persons(produced)
      ensures phase == Collecting || phase == Aborted
      ensures phase == Collecting ==> Writing(fs) && |produced| == (if options.population <= 0 then 0 else options.population)
      ensures phase == Aborted ==> |produced| < options.population && !fetches[|produced|].Person?
      ensures Collected(fs, old(resultQueue), old(fs.files), old(service.handler.sessions), old(service.handler.sent))
      ensures service.requests == if phase == Aborted then old(service.requests) - {uuid} else old(service.requests)
    {
      ghost var queue0 := resultQueue;
      ghost var files0 := fs.files;
      ghost var sent0 := service.handler.sent;
      ghost var sessions0 := service.handler.sessions;
      var taken := TakeRecords(fetches, fs, now, queue0, files0, sessions0, sent0);
      if taken < options.population {
        CollectorAbort();
      }
    }

    /** The loop itself: it stops at `population` records or at the first
     *  fetch that hands over none. */
    method TakeRecords(fetches: seq<Fetch>, fs: FileSystem, now: int, ghost queue0: seq<string>,
                       ghost files0: map<string, FileEntry>, ghost sessions0: map<string, Session>,
                       ghost sent0: seq<(Session, Outgoing)>) returns (k: int)
      requires Valid() && Writing(fs) && phase == Collecting && produced == []
      requires options.population <= |fetches| && Collected(fs, queue0, files0, sessions0, sent0)
      modifies this, fs, service.handler
      ensures Valid() && Writing(fs) && phase == Collecting && Setup() == old(Setup())
      ensures k == |produced| <= |fetches| && fetches[..|produced|] == Persons(produced)
      ensures |produced| == (if options.population <= 0 then 0 else options.population)
              || (|produced| < options.population && !fetches[|produced|].Person?)
      ensures Collected(fs, queue0, files0, sessions0, sent0)
      ensures service.requests == old(service.requests)
    {
      k := 0;
      while k < options.population && fetches[k].Person?
        invariant Valid() && Writing(fs) && phase == Collecting && Setup() == old(Setup())
        invariant k == idx == |produced| && (k == 0 || k <= options.population)
        invariant k <= |fetches| && fetches[..k] == Persons(produced)
        invariant Collected(fs, queue0, files0, sessions0, sent0)
        invariant service.requests == old(service.requests)
        decreases options.population - k
      {
        CollectOne(fetches[k].json, fs, now, queue0, files0, sessions0, sent0);
        PersonsSnoc(fetches, k, produced[..k]);
        k := k + 1;
      }
    }

    /** The whole result thread for a run in which nobody stops the request.
     *  A complete run leaves only the ZIP file, whose results entry is the
     *  JSON array of every record in generation order, and tells the client
     *  it completed; a run the generator cuts short deregisters the
     *  request. */
    method RunCollector(fetches: seq<Fetch>, fs: FileSystem, now: int)
      requires Valid() && phase == Launched && !stopFlag
      requires options.population <= |fetches|
      modifies this, fs, service, service.handler
      ensures Valid() && stopFlag == old(stopFlag) && startedFlag
      ensures configuration == old(configuration) && options == old(options)
      ensures |produced| <= |fetches| && fetches[..|produced|] == Persons(produced)
      ensures resultQueue == Recent(old(resultQueue) + produced, MAX_RESULTS_QUEUE_SIZE)
      ensures service.handler.sessions == old(service.handler.sessions)
      ensures phase == Completed <==> |produced| == (if options.population <= 0 then 0 else options.population)
      ensures phase == Completed ==>
        finishedFlag
        && fs.files == old(fs.files)[zipPath := FileEntry(Archive(ResultsArchive(uuid, configuration, TextOf(old(fs.files), jsonPath) + JsonArray(produced))),
                                                              CreatedAt(old(fs.files), zipPath, now))] - {jsonPath}
        && service.requests == old(service.requests)
        && service.handler.sent == old(service.handler.sent)
             + Notify(old(service.handler.sessions), uuid, RecordMessages(produced) + [Status("Completed")])
      ensures phase != Completed ==>
        phase == Aborted && !finishedFlag && |produced| < options.population && !fetches[|produced|].Person?
        && service.requests == old(service.requests) - {uuid}
        && service.handler.sent == old(service.handler.sent) + Notify(old(service.handler.sessions), uuid, RecordMessages(produced))
    {
      ghost var files0 := fs.files;
      CollectorOpen(fs, now);
      ghost var atOpen := fs.files[jsonPath];
      CollectRecords(fetches, fs, now);
      if phase == Collecting {
        ghost var atEnd := fs.files[jsonPath];
        Rewrite(files0, jsonPath, atOpen, atEnd);
        CollectorFinish(fs, now);
        WriteThenDelete(files0, jsonPath, atEnd, zipPath,
          FileEntry(Archive(ResultsArchive(uuid, configuration, jsonPrefix + JsonArray(produced))), CreatedAt(files0, zipPath, now)));
        NotifyAppend(old(service.handler.sessions), uuid, RecordMessages(produced), [Status("Completed")]);
        Associative(old(service.handler.sent), Notify(old(service.handler.sessions), uuid, RecordMessages(produced)),
          Notify(old(service.handler.sessions), uuid, [Status("Completed")]));
      }
    }

    /** The drain loop of `getCurrentResults`: polls the queue until it is
     *  empty, writing each record into a JSON array, oldest first. */
    method Drain() returns (json: string)
      requires |resultQueue| > 0
      modifies this
      ensures json == JsonArray(old(resultQueue)) && resultQueue == []
      ensures Fields() == old(Fields())
      ensures old(Valid()) ==> Valid()
    {
      ghost var queue := resultQueue;
      var idx := 0;
      var builder := "[";
      while |resultQueue| > 0
        invariant 0 <= idx <= |queue| && resultQueue == queue[idx..]
        invariant builder == "[" + Body(queue[..idx])
        invariant Fields() == old(Fields())
        decreases |resultQueue|
      {
        var person := resultQueue[0];
        resultQueue := resultQueue[1..];
        AppendRecord("[", queue[..idx], person);
        assert queue[..idx] + [person] == queue[..idx + 1];
        if idx > 0 {
          builder := builder + ",";
        }
        builder := builder + "\n" + person;
        idx := idx + 1;
      }
      json := builder + "\n]";
      assert queue[..idx] == queue;
    }
  }

  // ---------------------------------------------------------- RequestService

  /** The registry of requests and the paths of their artifacts. */
  class RequestService {
    const dirs: Dirs
    const whitelist: set<string>
    const config: SyntheaConfig
    const handler: SocketHandler
    var requests: map<string, Request>

    /** Every registered request is filed under its own uuid and belongs to
     *  this service. */
    ghost predicate Valid()
      reads this, requests.Values
    {
      forall u :: u in requests ==> requests[u].uuid == u && requests[u].service == this && IsUuid(u)
    }

    /** The directories come from `exporter.baseDirectory` (with the
     *  corrected separator handling, see OutputBaseAsWritten); the white
     *  list is read from the bundled properties file. */
    constructor(baseDir: Option<string>, whitelist: set<string>, config: SyntheaConfig, handler: SocketHandler)
      ensures dirs == OutputDirs(baseDir) && this.whitelist == whitelist
      ensures this.config == config && this.handler == handler && requests == map[]
      ensures Valid()
    {
      dirs := OutputDirs(baseDir);
      this.whitelist := whitelist;
      this.config := config;
      this.handler := handler;
      requests := map[];
    }

    /** `getRequest`: the request filed under `uuid`, or null. */
    function GetRequest(uuid: string): (r: Option<Request>)
      reads this
      ensures r.Some? <==> uuid in requests
      ensures r.Some? ==> r.value == requests[uuid]
    {
      if uuid in requests then Some(requests[uuid]) else None
    }

    /** `removeRequest`. */
    method RemoveRequest(uuid: string)
      modifies this
      ensures requests == old(requests) - {uuid}
    {
      requests := requests - {uuid};
    }

    /** `createRequest`: unparsable text gives null and registers nothing;
     *  otherwise a new request (with the fresh `uuid`) is configured and
     *  registered, unless configuring it throws, in which case the
     *  exception propagates and nothing is registered. */
    method CreateRequest(text: ConfigText, uuid: string, defaults: GeneratorOptions)
      returns (r: Result<Option<Request>>)
      requires Valid() && IsUuid(uuid)
      modifies this, config
      ensures Valid()
      ensures r == Ok(None) <==> text == ConfigurationText(None)
      ensures r.Err? <==> text.NoConfiguration? || (text.parsed.Some? && OptionsFrom(text.parsed.value, defaults).Err?)
      ensures r.Err? ==> r.error == (if text.NoConfiguration? then NULL_POINTER else JSON_EXCEPTION)
      ensures r.Ok? && r.value.Some? ==>
        var request := r.value.value;
        fresh(request) && request.uuid == uuid && requests == old(requests)[uuid := request]
        && request.Valid() && !request.startedFlag && !request.stopFlag && !request.finishedFlag
        && request.resultQueue == []
        && request.options == OptionsFrom(text.parsed.value, defaults).value
        && request.configuration == text.parsed.value["seed" := JNumber(request.options.seed)]
      ensures !(r.Ok? && r.value.Some?) ==> requests == old(requests)
      ensures text != ConfigurationText(None) ==>
        config.properties == old(config.properties)["exporter.webclient" := "true"]
      ensures text == ConfigurationText(None) ==> config.properties == old(config.properties)
    {
      var configuration: Option<JsonObject> := None;
      if text.ConfigurationText? {
        if text.parsed.None? {
          return Ok(None);
        }
        configuration := text.parsed;
      }
      var request := new Request(uuid, this, defaults);
      var configured := request.Configure(configuration, defaults);
      if configured.Err? {
        return Err(configured.error);
      }
      requests := requests[uuid := request];
      return Ok(Some(request));
    }

    /** `getCurrentResults`: null for an unknown request and "[]" for an
     *  empty queue; otherwise it drains the queue into a JSON array, oldest
     *  record first, and deregisters a finished request. */
    method GetCurrentResults(uuid: string) returns (r: Option<string>)
      modifies this, requests.Values
      ensures uuid !in old(requests) ==> r == None && requests == old(requests)
      ensures uuid in old(requests) && |old(requests[uuid].resultQueue)| == 0 ==>
        r == Some("[]") && requests == old(requests)
      ensures uuid in old(requests) && |old(requests[uuid].resultQueue)| > 0 ==>
        r == Some(JsonArray(old(requests[uuid].resultQueue)))
        && old(requests[uuid]).resultQueue == []
        && requests == if old(requests[uuid].finishedFlag) then old(requests) - {uuid} else old(requests)
      ensures forall q :: q in old(requests.Values) && (uuid !in old(requests) || q != old(requests[uuid])) ==> unchanged(q)
      ensures uuid in old(requests) ==> old(requests[uuid]).Fields() == old(requests[uuid].Fields())
      ensures uuid in old(requests) && old(requests[uuid].Valid()) ==> old(requests[uuid]).Valid()
    {
      if uuid !in requests {
        return None;
      }
      var request := requests[uuid];
      if |request.resultQueue| == 0 {
        return Some("[]");
      }
      var json := request.Drain();
      if request.finishedFlag {
        RemoveRequest(uuid);
      }
      return Some(json);
    }

    /** `sendMessage`: hands the message to the socket handler. */
    method SendMessage(uuid: string, message: Outgoing)
      modifies handler
      ensures handler.sessions == old(handler.sessions)
      ensures handler.sent == old(handler.sent) + Notify(old(handler.sessions), uuid, [message])
    {
      handler.SendMessage(uuid, message);
    }

    /** The static `updateSyntheaConfig`: like Request's, but it also skips
     *  "generateCSV". */
    method UpdateSyntheaConfig(configuration: JsonObject) returns (r: Result<()>)
      modifies config
      ensures r.Ok? <==> forall k :: k in Requested(configuration, GENERATOR_KEYS + {"generateCSV"}, whitelist) ==> configuration[k].JString?
      ensures r.Ok? ==> config.properties == old(config.properties) + Settings(Requested(configuration, GENERATOR_KEYS + {"generateCSV"}, whitelist))
      ensures forall k :: k in config.properties ==>
                (k in old(config.properties) && config.properties[k] == old(config.properties)[k])
                || (k in Requested(configuration, GENERATOR_KEYS + {"generateCSV"}, whitelist)
                    && configuration[k] == JString(config.properties[k]))
    {
      r := GeneratorConfig.UpdateSyntheaConfig(config, configuration, GENERATOR_KEYS + {"generateCSV"}, whitelist);
    }
  }

  // ----------------------------------------------------------- SocketHandler

  const NOT_FOUND := "Request not found (may be finished)"
  const HAS_FINISHED := "Request has finished"
  const NOT_STARTED_YET := "Request has not started yet"
  const COULD_NOT_PROCESS := "Could not process specified configuration"
  const UUID_MISSING := "UUID missing or could not process specified configuration"
  const UUID_REQUIRED := "UUID required"

  /** Whom a reply goes to: the session that sent the command, or the one
   *  mapped to the request's uuid (null when there is none). */
  datatype Target = Sender | Mapped

  datatype Action = NoAction | StartRequest | StopRequest

  /** A command's reply and what it does to the request. */
  datatype Decision = Decision(target: Target, reply: Outgoing, action: Action)

  /** "start": not found, finished, not started (start it), or already
   *  running, checked in that order; replies go to the mapped session. */
  function StartDecision(request: Option<Snapshot>): (d: Decision)
    ensures d.target == Mapped && d.action != StopRequest
    ensures d.action == StartRequest <==> request.Some? && !request.value.finished && !request.value.started
    ensures d.action == StartRequest <==> d.reply == Status("Started")
    ensures request.None? ==> d.reply == Error(NOT_FOUND)
    ensures request.Some? && request.value.finished ==> d.reply == Error(HAS_FINISHED)
    ensures request.Some? && !request.value.finished && request.value.started ==> d.reply == Status("Already running")
  {
    if request.None? then Decision(Mapped, Error(NOT_FOUND), NoAction)
    else if request.value.finished then Decision(Mapped, Error(HAS_FINISHED), NoAction)
    else if !request.value.started then Decision(Mapped, Status("Started"), StartRequest)
    else Decision(Mapped, Status("Already running"), NoAction)
  }

  /** "stop": not found, not started, finished, already stopped, checked
   *  in that order; only a request passing all four is stopped. */
  function StopDecision(request: Option<Snapshot>): (d: Decision)
    ensures d.target == Mapped && d.action != StartRequest
    ensures d.action == StopRequest <==>
              request.Some? && request.value.started && !request.value.finished && !request.value.stopped
    ensures d.action == StopRequest <==> d.reply == Status("Stopped")
    ensures request.None? ==> d.reply == Error(NOT_FOUND)
    ensures request.Some? && !request.value.started ==> d.reply == Error(NOT_STARTED_YET)
    ensures request.Some? && request.value.started && request.value.finished ==> d.reply == Error(HAS_FINISHED)
    ensures request.Some? && request.value.started && !request.value.finished && request.value.stopped ==>
              d.reply == Status("Already stopped")
  {
    if request.None? then Decision(Mapped, Error(NOT_FOUND), NoAction)
    else if !request.value.started then Decision(Mapped, Error(NOT_STARTED_YET), NoAction)
    else if request.value.finished then Decision(Mapped, Error(HAS_FINISHED), NoAction)
    else if request.value.stopped then Decision(Mapped, Status("Already stopped"), NoAction)
    else Decision(Mapped, Status("Stopped"), StopRequest)
  }

  /** "update-request": an unknown or finished request is refused (to the
   *  mapped session) before the configuration is looked at; otherwise the
   *  sender is told whether the configuration could be read. */
  function UpdateDecision(request: Option<Snapshot>, configuration: Option<Option<JsonObject>>): (d: Decision)
    ensures d.action == NoAction
    ensures d.target == Mapped <==> request.None? || request.value.finished
    ensures d.reply == Status("Configured request") <==>
              request.Some? && !request.value.finished && configuration.Some? && configuration.value.Some?
  {
    if request.None? then Decision(Mapped, Error(NOT_FOUND), NoAction)
    else if request.value.finished then Decision(Mapped, Error(HAS_FINISHED), NoAction)
    else if configuration.Some? && configuration.value.Some? then Decision(Sender, Status("Configured request"), NoAction)
    else Decision(Sender, Error(UUID_MISSING), NoAction)
  }

  /** A command message: its "operation" and "uuid" members (absent when
   *  `None`) and its "configuration" member (`None` when absent, otherwise
   *  what parsing its text as an object gives). */
  datatype Command = Command(operation: Option<JsonValue>, uuid: Option<JsonValue>,
                             configuration: Option<Option<JsonObject>>)

  /** A string member as `getString` reads it. */
  function StringMember(v: Option<JsonValue>): (r: Option<string>)
    ensures r.Some? <==> v.Some? && v.value.JString?
  {
    if v.Some? && v.value.JString? then Some(v.value.s) else None
  }

  /** `sessions.values().remove(session)` as written: a collection view's
   *  `remove` drops only the first mapping to the session, in the map's
   *  iteration order `order`. */
  function RemoveFirstMapping(sessions: map<string, Session>, session: Session, order: seq<string>): map<string, Session> {
    if |order| == 0 then sessions
    else if order[0] in sessions && sessions[order[0]] == session then sessions - {order[0]}
    else RemoveFirstMapping(sessions, session, order[1..])
  }

  /** The intended effect: no uuid stays mapped to the closed session. */
  function WithoutSession(sessions: map<string, Session>, session: Session): (r: map<string, Session>)
    ensures forall u :: u in r <==> u in sessions && sessions[u] != session
    ensures forall u :: u in r ==> r[u] == sessions[u]
  {
    map u | u in sessions && sessions[u] != session :: sessions[u]
  }

  /** A session that configured two requests keeps one of them mapped
   *  after it closes. */
  lemma RemoveFirstMappingLeavesOne()
    ensures var s := Session(0);
            var sessions := map["a" := s, "b" := s];
            "b" in RemoveFirstMapping(sessions, s, ["a", "b"]) && "b" !in WithoutSession(sessions, s)
  {
    var s := Session(0);
    var sessions := map["a" := s, "b" := s];
    assert RemoveFirstMapping(sessions, s, ["a", "b"]) == sessions - {"a"};
  }

  /** With at most one uuid per session the two agree. */
  lemma RemoveFirstMappingAgrees(sessions: map<string, Session>, session: Session, order: seq<string>)
    requires forall u :: u in sessions && sessions[u] == session ==> u in order
    requires forall u, v :: u in sessions && v in sessions && sessions[u] == session && sessions[v] == session ==> u == v
    ensures RemoveFirstMapping(sessions, session, order) == WithoutSession(sessions, session)
    decreases |order|
  {
    if |order| > 0 && !(order[0] in sessions && sessions[order[0]] == session) {
      RemoveFirstMappingAgrees(sessions, session, order[1..]);
    }
  }

  class SocketHandler {
    var service: RequestService?
    var sessions: map<string, Session>
    /** Every message sent, with the session it went to. */
    var sent: seq<(Session, Outgoing)>
    /** Sessions the handler closed itself. */
    var closed: set<Session>

    constructor()
      ensures service == null && sessions == map[] && sent == [] && closed == {}
    {
      service := null;
      sessions := map[];
      sent := [];
      closed := {};
    }

    /** The service the framework injects. */
    method Wire(service: RequestService)
      modifies this
      ensures this.service == service && sessions == old(sessions) && sent == old(sent) && closed == old(closed)
    {
      this.service := service;
    }

    ghost predicate Valid()
      reads this, service, if service != null then service.requests.Values else {}
    {
      service != null && service.handler == this && service.Valid()
    }

    /** The flags of the request filed under `uuid`, if any. */
    function Lookup(uuid: string): (r: Option<Snapshot>)
      requires service != null
      reads this, service, service.requests.Values
      ensures r.Some? <==> uuid in service.requests
    {
      if uuid in service.requests
      then var q := service.requests[uuid]; Some(Snapshot(q.startedFlag, q.stopFlag, q.finishedFlag))
      else None
    }

    /** The request a command names, as a frame. */
    function Named(uuid: Option<string>): set<Request>
      requires service != null
      reads this, service
    {
      if uuid.Some? && uuid.value in service.requests then {service.requests[uuid.value]} else {}
    }

    /** `sendMessage(uuid, message)`: sent to the mapped session, or only
     *  logged when there is none. */
    method SendMessage(uuid: string, message: Outgoing)
      modifies this
      ensures sessions == old(sessions) && closed == old(closed) && service == old(service)
      ensures sent == old(sent) + Notify(old(sessions), uuid, [message])
    {
      if uuid in sessions {
        sent := sent + [(sessions[uuid], message)];
      }
    }

    /** `afterConnectionClosed`: a session that did not close normally is
     *  closed, and the session is unmapped from every request (see
     *  RemoveFirstMapping for the code as written). */
    method AfterConnectionClosed(session: Session, normal: bool)
      modifies this
      ensures sessions == WithoutSession(old(sessions), session)
      ensures closed == if normal then old(closed) else old(closed) + {session}
      ensures sent == old(sent) && service == old(service)
    {
      if !normal {
        closed := closed + {session};
      }
      sessions := WithoutSession(sessions, session);
    }

    /** Delivers a decision's reply; a reply to the mapped session when
     *  there is none throws a NullPointerException. */
    method Reply(session: Session, uuid: string, d: Decision) returns (outcome: Outcome)
      modifies this
      ensures sessions == old(sessions) && closed == old(closed) && service == old(service)
      ensures d.target == Sender ==> outcome == Handled && sent == old(sent) + [(session, d.reply)]
      ensures d.target == Mapped && uuid in old(sessions) ==>
                outcome == Handled && sent == old(sent) + [(old(sessions)[uuid], d.reply)]
      ensures d.target == Mapped && uuid !in old(sessions) ==>
                outcome == Thrown(NULL_POINTER) && sent == old(sent)
    {
      if d.target == Sender {
        sent := sent + [(session, d.reply)];
        return Handled;
      }
      if uuid !in sessions {
        return Thrown(NULL_POINTER);
      }
      sent := sent + [(sessions[uuid], d.reply)];
      return Handled;
    }

    /** "configure": registers a new request, maps its uuid to the sender
     *  and replies with the uuid and the stored configuration; a missing or
     *  unreadable configuration gets an error reply, and a configuration
     *  text that is not an object leaves `createRequest` returning null,
     *  which the handler dereferences. */
    method HandleConfigure(session: Session, configuration: Option<Option<JsonObject>>, uuid: string,
                           defaults: GeneratorOptions) returns (outcome: Outcome)
      requires Valid() && IsUuid(uuid)
      modifies this, service, service.config
      ensures Valid() && service == old(service) && closed == old(closed)
      ensures configuration.None? ==>
        outcome == Handled && sessions == old(sessions) && service.requests == old(service.requests)
        && sent == old(sent) + [(session, Error(COULD_NOT_PROCESS))]
      ensures configuration == Some(None) ==>
        outcome == Thrown(NULL_POINTER) && sessions == old(sessions) && sent == old(sent)
        && service.requests == old(service.requests)
      ensures configuration.Some? && configuration.value.Some? && OptionsFrom(configuration.value.value, defaults).Err? ==>
        outcome == Handled && sessions == old(sessions) && service.requests == old(service.requests)
        && sent == old(sent) + [(session, Error(COULD_NOT_PROCESS))]
      ensures configuration.Some? && configuration.value.Some? && OptionsFrom(configuration.value.value, defaults).Ok? ==>
        outcome == Handled && uuid in service.requests && fresh(service.requests[uuid])
        && service.requests == old(service.requests)[uuid := service.requests[uuid]]
        && sessions == old(sessions)[uuid := session]
        && sent == old(sent) + [(session, Configured(uuid, service.requests[uuid].configuration))]
        && service.requests[uuid].configuration
             == configuration.value.value["seed" := JNumber(OptionsFrom(configuration.value.value, defaults).value.seed)]
    {
      if configuration.None? {
        sent := sent + [(session, Error(COULD_NOT_PROCESS))];
        return Handled;
      }
      var created := service.CreateRequest(ConfigurationText(configuration.value), uuid, defaults);
      if created.Err? {
        sent := sent + [(session, Error(COULD_NOT_PROCESS))];
        return Handled;
      }
      if created.value.None? {
        return Thrown(NULL_POINTER);
      }
      var request := created.value.value;
      sessions := sessions[uuid := session];
      sent := sent + [(session, Configured(uuid, request.configuration))];
      return Handled;
    }

    /** "start": see StartDecision; only a request that was never started
     *  is started. */
    method HandleStart(session: Session, uuid: Option<JsonValue>) returns (outcome: Outcome)
      requires Valid()
      requires forall q :: q in Named(StringMember(uuid)) ==> q.Valid()
      modifies this, Named(StringMember(uuid))
      ensures Valid() && service == old(service) && sessions == old(sessions) && closed == old(closed)
      ensures StringMember(uuid).None? ==> outcome == Handled && sent == old(sent) + [(session, Error(UUID_REQUIRED))]
      ensures StringMember(uuid).Some? ==>
        var u := StringMember(uuid).value;
        var d := StartDecision(old(Lookup(u)));
        (u in sessions ==> outcome == Handled && sent == old(sent) + [(sessions[u], d.reply)])
        && (u !in sessions ==> outcome == Thrown(NULL_POINTER) && sent == old(sent))
        && (d.action == StartRequest ==> service.requests[u].StartedOnly())
        && (d.action != StartRequest ==> forall q :: q in old(Named(StringMember(uuid))) ==> unchanged(q))
      ensures forall q :: q in old(Named(StringMember(uuid))) ==> q.Valid()
    {
      var u := StringMember(uuid);
      if u.None? {
        sent := sent + [(session, Error(UUID_REQUIRED))];
        return Handled;
      }
      var d := StartDecision(Lookup(u.value));
      if d.action == StartRequest {
        var request := service.requests[u.value];
        request.Start();
      }
      outcome := Reply(session, u.value, d);
    }

    /** "stop": see StopDecision; only a started, unfinished, running
     *  request has its stop flag set. */
    method HandleStop(session: Session, uuid: Option<JsonValue>) returns (outcome: Outcome)
      requires Valid()
      requires forall q :: q in Named(StringMember(uuid)) ==> q.Valid()
      modifies this, Named(StringMember(uuid))
      ensures Valid() && service == old(service) && sessions == old(sessions) && closed == old(closed)
      ensures StringMember(uuid).None? ==> outcome == Handled && sent == old(sent) + [(session, Error(UUID_REQUIRED))]
      ensures StringMember(uuid).Some? ==>
        var u := StringMember(uuid).value;
        var d := StopDecision(old(Lookup(u)));
        (u in sessions ==> outcome == Handled && sent == old(sent) + [(sessions[u], d.reply)])
        && (u !in sessions ==> outcome == Thrown(NULL_POINTER) && sent == old(sent))
        && (d.action == StopRequest ==> service.requests[u].StoppedOnly())
        && (d.action != StopRequest ==> forall q :: q in old(Named(StringMember(uuid))) ==> unchanged(q))
      ensures forall q :: q in old(Named(StringMember(uuid))) ==> q.Valid()
    {
      var u := StringMember(uuid);
      if u.None? {
        sent := sent + [(session, Error(UUID_REQUIRED))];
        return Handled;
      }
      var d := StopDecision(Lookup(u.value));
      if d.action == StopRequest {
        var request := service.requests[u.value];
        request.Stop();
      }
      outcome := Reply(session, u.value, d);
    }

    /** "update-request": see UpdateDecision; the request itself is left
     *  as it is (the update method it calls is not part of this model). */
    method HandleUpdateRequest(session: Session, uuid: Option<JsonValue>, configuration: Option<Option<JsonObject>>)
      returns (outcome: Outcome)
      requires Valid()
      modifies this
      ensures Valid() && service == old(service) && sessions == old(sessions) && closed == old(closed)
      ensures StringMember(uuid).None? ==> outcome == Handled && sent == old(sent) + [(session, Error(UUID_MISSING))]
      ensures StringMember(uuid).Some? ==>
        var u := StringMember(uuid).value;
        var d := UpdateDecision(Lookup(u), configuration);
        (d.target == Sender ==> outcome == Handled && sent == old(sent) + [(session, d.reply)])
        && (d.target == Mapped && u in sessions ==> outcome == Handled && sent == old(sent) + [(sessions[u], d.reply)])
        && (d.target == Mapped && u !in sessions ==> outcome == Thrown(NULL_POINTER) && sent == old(sent))
    {
      var u := StringMember(uuid);
      if u.None? {
        sent := sent + [(session, Error(UUID_MISSING))];
        return Handled;
      }
      var d := UpdateDecision(Lookup(u.value), configuration);
      outcome := Reply(session, u.value, d);
    }

    /** `handleTextMessage`: an unparsable message, or one without a string
     *  "operation", is only logged; the four operations are dispatched and
     *  any other operation is answered with an error naming it. */
    method HandleTextMessage(session: Session, message: Option<Command>, newUuid: string, defaults: GeneratorOptions)
      returns (outcome: Outcome)
      requires Valid() && IsUuid(newUuid)
      requires forall q :: q in service.requests.Values ==> q.Valid()
      modifies this, service, service.config, service.requests.Values
      ensures Valid() && service == old(service) && closed == old(closed)
      ensures forall q :: q in old(service.requests.Values) ==>
                unchanged(q) || (message.Some? && StringMember(message.value.operation) in {Some("start"), Some("stop")}
                                 && q in old(Named(StringMember(message.value.uuid))))
      ensures message.None? || StringMember(message.value.operation).None? ==>
                outcome == Handled && sent == old(sent) && sessions == old(sessions)
                && service.requests == old(service.requests)
      ensures message.Some? && StringMember(message.value.operation).Some? ==>
                var op := StringMember(message.value.operation).value;
                op !in {"configure", "update-request", "start", "stop"} ==>
                  outcome == Handled && sent == old(sent) + [(session, Error("Unsupported operation: " + op))]
                  && sessions == old(sessions) && service.requests == old(service.requests)
      ensures message.Some? && StringMember(message.value.operation) == Some("configure") ==>
        var c := message.value.configuration;
        (c.None? ==>
          outcome == Handled && sessions == old(sessions) && service.requests == old(service.requests)
          && sent == old(sent) + [(session, Error(COULD_NOT_PROCESS))])
        && (c == Some(None) ==>
          outcome == Thrown(NULL_POINTER) && sessions == old(sessions) && sent == old(sent)
          && service.requests == old(service.requests))
        && (c.Some? && c.value.Some? && OptionsFrom(c.value.value, defaults).Err? ==>
          outcome == Handled && sessions == old(sessions) && service.requests == old(service.requests)
          && sent == old(sent) + [(session, Error(COULD_NOT_PROCESS))])
        && (c.Some? && c.value.Some? && OptionsFrom(c.value.value, defaults).Ok? ==>
          outcome == Handled && newUuid in service.requests && fresh(service.requests[newUuid])
          && service.requests == old(service.requests)[newUuid := service.requests[newUuid]]
          && sessions == old(sessions)[newUuid := session]
          && sent == old(sent) + [(session, Configured(newUuid, service.requests[newUuid].configuration))]
          && service.requests[newUuid].configuration
               == c.value.value["seed" := JNumber(OptionsFrom(c.value.value, defaults).value.seed)])
      ensures message.Some? && StringMember(message.value.operation) == Some("update-request") ==>
        sessions == old(sessions) && service.requests == old(service.requests)
        && (StringMember(message.value.uuid).None? ==>
              outcome == Handled && sent == old(sent) + [(session, Error(UUID_MISSING))])
        && (StringMember(message.value.uuid).Some? ==>
              var u := StringMember(message.value.uuid).value;
              var d := UpdateDecision(old(Lookup(u)), message.value.configuration);
              (d.target == Sender ==> outcome == Handled && sent == old(sent) + [(session, d.reply)])
              && (d.target == Mapped && u in sessions ==> outcome == Handled && sent == old(sent) + [(sessions[u], d.reply)])
              && (d.target == Mapped && u !in sessions ==> outcome == Thrown(NULL_POINTER) && sent == old(sent)))
      ensures message.Some? && StringMember(message.value.operation) == Some("start") ==>
        sessions == old(sessions) && service.requests == old(service.requests)
        && (StringMember(message.value.uuid).None? ==>
              outcome == Handled && sent == old(sent) + [(session, Error(UUID_REQUIRED))])
        && (StringMember(message.value.uuid).Some? ==>
              var u := StringMember(message.value.uuid).value;
              var d := StartDecision(old(Lookup(u)));
              (u in sessions ==> outcome == Handled && sent == old(sent) + [(sessions[u], d.reply)])
              && (u !in sessions ==> outcome == Thrown(NULL_POINTER) && sent == old(sent))
              && (d.action == StartRequest ==> service.requests[u].StartedOnly())
              && (d.action != StartRequest ==> forall q :: q in old(Named(StringMember(message.value.uuid))) ==> unchanged(q)))
      ensures message.Some? && StringMember(message.value.operation) == Some("stop") ==>
        sessions == old(sessions) && service.requests == old(service.requests)
        && (StringMember(message.value.uuid).None? ==>
              outcome == Handled && sent == old(sent) + [(session, Error(UUID_REQUIRED))])
        && (StringMember(message.value.uuid).Some? ==>
              var u := StringMember(message.value.uuid).value;
              var d := StopDecision(old(Lookup(u)));
              (u in sessions ==> outcome == Handled && sent == old(sent) + [(sessions[u], d.reply)])
              && (u !in sessions ==> outcome == Thrown(NULL_POINTER) && sent == old(sent))
              && (d.action == StopRequest ==> service.requests[u].StoppedOnly())
              && (d.action != StopRequest ==> forall q :: q in old(Named(StringMember(message.value.uuid))) ==> unchanged(q)))
    {
      if message.None? {
        return Handled;
      }
      var command := message.value;
      var op := StringMember(command.operation);
      if op.None? {
        return Handled;
      }
      match op.value
      case "configure" =>
        outcome := HandleConfigure(session, command.configuration, newUuid, defaults);
      case "update-request" =>
        outcome := HandleUpdateRequest(session, command.uuid, command.configuration);
      case "start" =>
        outcome := HandleStart(session, command.uuid);
      case "stop" =>
        outcome := HandleStop(session, command.uuid);
      case _ =>
        sent := sent + [(session, Error("Unsupported operation: " + op.value))];
        outcome := Handled;
    }
  }
}
