/** The record stream a generation request produces: the bounded result
 *  queue polled by clients, the JSON array framing written to the results
 *  file and returned by the polls, and the messages pushed to clients. */
module ResultStream {
  import opened JavaText
  import opened GeneratorConfig

  /** Capacity of a request's result queue. */
  const MAX_RESULTS_QUEUE_SIZE: nat := 1000

  /** What one call of the generator's `getNextPerson` produced. */
  datatype Fetch =
    | Person(json: string)     // a generated record, as JSON text
    | Interrupted              // InterruptedException
    | Failure                  // any other exception

  /** A message pushed to a client: `Status(s)` is `{ "status": "s" }`,
   *  `Error(e)` is `{ "error": "e" }`, `WsStatus(s)` is `{ "wsStatus": "s" }`,
   *  `Configured(u, c)` is the socket handler's
   *  `{ "status": "Configured", "uuid": u, "configuration": c }`,
   *  `Accepted(u, c)` is the Controller's configuration reply
   *  `{ "uuid": u, "config": c }`, and `Record` is a generated record sent
   *  as is. */
  datatype Outgoing =
    | Status(status: string)
    | Error(error: string)
    | WsStatus(wsStatus: string)
    | Configured(uuid: string, configuration: JsonObject)
    | Accepted(uuid: string, config: JsonObject)
    | Record(json: string)

  /** The generator outcomes that hand over exactly `records`, in order. */
  function Persons(records: seq<string>): (r: seq<Fetch>)
    ensures |r| == |records|
  {
    seq(|records|, i requires 0 <= i < |records| => Person(records[i]))
  }

  /** Taking the record the next fetch hands over extends the match by one. */
  lemma PersonsSnoc(fetches: seq<Fetch>, k: nat, records: seq<string>)
    requires k < |fetches| && fetches[k].Person? && fetches[..k] == Persons(records)
    ensures fetches[..k + 1] == Persons(records + [fetches[k].json])
  {
    assert fetches[..k + 1] == fetches[..k] + [fetches[k]];
  }

  /** The last `n` elements of `xs`, or all of them when there are fewer. */
  function Recent<T>(xs: seq<T>, n: nat): (r: seq<T>)
    ensures |r| == if |xs| < n then |xs| else n
  {
    if |xs| <= n then xs else xs[|xs| - n..]
  }

  /** Adding a record to a result queue: a queue already holding
   *  MAX_RESULTS_QUEUE_SIZE records first loses its oldest one. */
  function Offer(q: seq<string>, x: string): (r: seq<string>)
    ensures |q| <= MAX_RESULTS_QUEUE_SIZE ==> |r| <= MAX_RESULTS_QUEUE_SIZE
    ensures 0 < |r| <= |q| + 1 && r[|r| - 1] == x
    ensures |q| < MAX_RESULTS_QUEUE_SIZE ==> r == q + [x]
  {
    if |q| == MAX_RESULTS_QUEUE_SIZE then q[1..] + [x] else q + [x]
  }

  /** A queue fed only by `Offer` holds the most recent records, oldest
   *  first: offering to the window of `a` gives the window of `a + [x]`. */
  lemma OfferKeepsRecent(a: seq<string>, x: string)
    ensures Offer(Recent(a, MAX_RESULTS_QUEUE_SIZE), x) == Recent(a + [x], MAX_RESULTS_QUEUE_SIZE)
  {
    var w := Recent(a, MAX_RESULTS_QUEUE_SIZE);
    if |w| == MAX_RESULTS_QUEUE_SIZE {
      assert w[1..] + [x] == (a + [x])[|a| + 1 - MAX_RESULTS_QUEUE_SIZE..];
    } else {
      assert w == a;
    }
  }

  /** The same, for a queue that started from `a` and has since been
   *  offered `b` and then `x`. */
  lemma OfferKeepsRecentAfter(a: seq<string>, b: seq<string>, x: string)
    ensures Offer(Recent(a + b, MAX_RESULTS_QUEUE_SIZE), x) == Recent(a + (b + [x]), MAX_RESULTS_QUEUE_SIZE)
  {
    OfferKeepsRecent(a + b, x);
    assert a + b + [x] == a + (b + [x]);
  }

  /** `s` ends with `t`. */
  predicate IsSuffix<T(==)>(t: seq<T>, s: seq<T>) {
    |t| <= |s| && s[|s| - |t|..] == t
  }

  /** What an offer leaves is a tail of the queue followed by the record:
   *  nothing is reordered or invented. */
  lemma OfferIsTail(q: seq<string>, x: string)
    ensures IsSuffix(Offer(q, x), q + [x])
  {
    if |q| == MAX_RESULTS_QUEUE_SIZE {
      assert (q + [x])[1..] == q[1..] + [x];
    }
  }

  /** The window is a tail of the whole sequence. */
  lemma RecentIsTail(xs: seq<string>, n: nat)
    ensures IsSuffix(Recent(xs, n), xs)
  {
  }

  /** Offering keeps a queue a tail of everything produced so far, so no
   *  record is reordered or duplicated. */
  lemma OfferKeepsSuffix(q: seq<string>, produced: seq<string>, x: string)
    requires IsSuffix(q, produced)
    ensures IsSuffix(Offer(q, x), produced + [x])
  {
    var p := produced + [x];
    assert p[|p| - |q| - 1..] == q + [x];
    if |q| == MAX_RESULTS_QUEUE_SIZE {
      assert p[|p| - |q|..] == q[1..] + [x];
    }
  }

  function Separator(index: nat): string {
    if index == 0 then "" else ","
  }

  /** The inside of a JSON array as the code writes it: each record on a
   *  new line, with a comma before every record after the first. */
  function Body(records: seq<string>): string {
    if |records| == 0 then ""
    else Body(records[..|records| - 1]) + Separator(|records| - 1) + "\n" + records[|records| - 1]
  }

  /** Appending a record extends the body by its separator, a newline and
   *  the record. */
  lemma BodySnoc(records: seq<string>, record: string)
    ensures Body(records + [record]) == Body(records) + (Separator(|records|) + "\n" + record)
  {
    var all := records + [record];
    assert all[..|records|] == records && all[|records|] == record;
    var b, s := Body(records), Separator(|records|);
    assert Body(all) == b + s + "\n" + record;
    Associative(b + s, "\n", record);
    Associative(b, s, "\n" + record);
    Associative(s, "\n", record);
  }

  /** The same, for a file that holds `prefix` before the body: appending
   *  the separator, a newline and the record to it gives the body of the
   *  longer sequence. */
  lemma AppendRecord(prefix: string, records: seq<string>, record: string)
    ensures prefix + Body(records) + (Separator(|records|) + "\n" + record) == prefix + Body(records + [record])
  {
    BodySnoc(records, record);
    Associative(prefix, Body(records), Separator(|records|) + "\n" + record);
  }

  /** "[" + the body + "\n]". */
  function JsonArray(records: seq<string>): string {
    "[" + Body(records) + "\n]"
  }

  /** Each record preceded by its newline. */
  function Lines(records: seq<string>): (r: seq<string>)
    ensures |r| == |records|
    ensures forall i :: 0 <= i < |records| ==> r[i] == "\n" + records[i]
  {
    seq(|records|, i requires 0 <= i < |records| => "\n" + records[i])
  }

  /** The body is the newline-prefixed records joined with commas. */
  lemma {:induction false} BodyIsJoin(records: seq<string>)
    requires |records| > 0
    ensures Body(records) == Join(Lines(records), ",")
    decreases |records|
  {
    var n := |records|;
    if n > 1 {
      var init := records[..n - 1];
      BodyIsJoin(init);
      assert Lines(records) == Lines(init) + ["\n" + records[n - 1]];
      JoinSnoc(Lines(init), "\n" + records[n - 1], ",");
    }
  }

  /** A record free of commas stays so with its newline in front. */
  lemma LineAvoidsComma(record: string)
    requires !Contains(record, ",")
    ensures !Contains("\n" + record, ",")
  {
    var l := "\n" + record;
    if Contains(l, ",") {
      var j := FindFrom(l, ",", 0).value;
      assert j >= 1 && l[j] == ',';
      assert record[j - 1..j] == ",";
      assert OccursAt(record, ",", j - 1);
    }
  }

  /** When no record contains a comma, splitting the body at its commas
   *  recovers every record, in order: the framing loses nothing. */
  lemma BodyRecoversRecords(records: seq<string>)
    requires |records| > 0
    requires forall i :: 0 <= i < |records| ==> !Contains(records[i], ",")
    ensures Pieces(Body(records), ",") == Lines(records)
  {
    BodyIsJoin(records);
    var lines := Lines(records);
    forall k | 0 <= k < |lines|
      ensures !Contains(lines[k], ",")
    {
      LineAvoidsComma(records[k]);
    }
    PiecesOfJoin(lines, ",");
  }
}
