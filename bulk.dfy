/** `sendBulkEmail` of the email service: sends the request's destinations to
    the provider's bulk-templated-email operation in chunks of at most 50,
    removing each chunk from the request's array (`splice(0, 50)`) before
    sending it. The loop runs while the number of chunks sent so far is at
    most the number of destinations still in the array; it compares a count
    of chunks with a count of destinations. The provider's client is a
    parameter. */
module Bulk {
  import opened JsValues
  import opened Requests
  import Mail

  /** The provider's limit on destinations per bulk call. */
  const ChunkSize := 50

  /** One chunk of destinations, as `splice(0, 50)` removes it. */
  type Chunk = seq<BulkDestination>

  /** The parameters of one bulk command. */
  datatype BulkParams = BulkParams(
    template: Option<string>,
    defaultTemplateData: Option<map<string, string>>,
    defaultTags: map<string, string>,
    destinations: Chunk,
    source: string)

  /** What the provider's client gave back for one command: its response, or
      a thrown error. */
  datatype SesReply = SesAccepted(response: string) | SesThrew(message: string)

  type SesClient = BulkParams -> SesReply

  /** The request object `sendBulkEmail` receives. Only `destinations` is
      changed, by the splices of the loop. */
  class BulkMailRequest {
    const sendingEmailAddress: Option<string>
    const emailTemplate: Option<string>
    const templateData: Option<map<string, string>>
    const messageTag: Option<map<string, string>>
    var destinations: seq<BulkDestination>

    /** The request body an entry point routes to the bulk send; both only
        do so when it has a `destinations` array. */
    constructor (body: Request)
      requires body.destinations.Some?
      ensures sendingEmailAddress == body.sendingEmailAddress
      ensures emailTemplate == body.emailTemplate
      ensures templateData == body.templateData
      ensures messageTag == body.messageTag
      ensures destinations == body.destinations.value
    {
      sendingEmailAddress := body.sendingEmailAddress;
      emailTemplate := body.emailTemplate;
      templateData := body.templateData;
      messageTag := body.messageTag;
      destinations := body.destinations.value;
    }

    /** `destinations.splice(0, count)`: removes the first `count` entries
        (all of them when fewer are left) and returns them. */
    method Splice(count: nat) returns (removed: seq<BulkDestination>)
      modifies this
      ensures |removed| == if count < |old(destinations)| then count else |old(destinations)|
      ensures old(destinations) == removed + destinations
    {
      var n := if count < |destinations| then count else |destinations|;
      removed := destinations[..n];
      destinations := destinations[n..];
      assert old(destinations) == removed + destinations;
    }
  }

  /** The tags of a bulk send: `{...messageTag, ...defaults}`, so unlike the
      single send the default tracking tag wins over the caller's. */
  function BulkTags(messageTag: Option<map<string, string>>): (r: map<string, string>)
    ensures TrackingKeyIsDefault(r)
    ensures messageTag.None? ==> r.Keys == {Mail.TrackingKey}
    ensures messageTag.Some? ==> r.Keys == messageTag.value.Keys + {Mail.TrackingKey}
    ensures messageTag.Some? ==>
              forall k :: k in messageTag.value && k != Mail.TrackingKey ==> r[k] == messageTag.value[k]
  {
    var defaults := map[Mail.TrackingKey := Mail.TrackingDefault];
    if messageTag.Some? then messageTag.value + defaults else defaults
  }

  predicate TrackingKeyIsDefault(tags: map<string, string>)
  {
    Mail.TrackingKey in tags && tags[Mail.TrackingKey] == Mail.TrackingDefault
  }

  /** The `Source` of every command: the label with the sending address, or
      with the default mailbox. */
  function BulkSource(senderLabel: string, sendingEmailAddress: Option<string>): (r: string)
    ensures TruthyStr(sendingEmailAddress) ==> r == Mail.Sender(senderLabel, sendingEmailAddress.value)
    ensures !TruthyStr(sendingEmailAddress) ==> r == Mail.Sender(senderLabel, Mail.DefaultMailbox)
  {
    Mail.Sender(senderLabel, if TruthyStr(sendingEmailAddress) then sendingEmailAddress.value else Mail.DefaultMailbox)
  }

  /** The number of destinations `splice(0, 50)` removes. */
  function ChunkLength(ds: seq<BulkDestination>): (n: nat)
    ensures n <= |ds| && n <= ChunkSize
    ensures n == ChunkSize || n == |ds|
  {
    if |ds| < ChunkSize then |ds| else ChunkSize
  }

  /** The destinations one after another. */
  function Flatten(chunks: seq<Chunk>): (r: seq<BulkDestination>)
  {
    if chunks == [] then [] else chunks[0] + Flatten(chunks[1..])
  }

  lemma FlattenCons(c: Chunk, a: seq<Chunk>)
    ensures Flatten([c] + a) == c + Flatten(a)
  {
    assert ([c] + a)[1..] == a;
  }

  /** The chunks the loop as written takes from `ds` once `sent` chunks have
      gone: one more for as long as `sent` is at most what is left. */
  function Chunks(ds: seq<BulkDestination>, sent: nat): (r: seq<Chunk>)
    // a turn is taken exactly while `sent` is at most what is left, and it
    // splices the front of the array
    ensures r == [] <==> sent > |ds|
    ensures r != [] ==> r[0] == ds[..ChunkLength(ds)]
    decreases if sent <= |ds| then |ds| - sent + 1 else 0
  {
    if sent <= |ds| then [ds[..ChunkLength(ds)]] + Chunks(ds[ChunkLength(ds)..], sent + 1)
    else []
  }

  /** Each chunk is within the provider's limit, every chunk but the last is
      full, and an empty chunk is sent only as the very first one, for an
      empty list. */
  lemma {:induction false} ChunkSizes(ds: seq<BulkDestination>, sent: nat)
    ensures forall k :: 0 <= k < |Chunks(ds, sent)| ==> |Chunks(ds, sent)[k]| <= ChunkSize
    ensures forall k :: 0 <= k < |Chunks(ds, sent)| - 1 ==> |Chunks(ds, sent)[k]| == ChunkSize
    ensures forall k :: 0 <= k < |Chunks(ds, sent)| && |Chunks(ds, sent)[k]| == 0 ==> k == 0 && sent == 0 && ds == []
    decreases if sent <= |ds| then |ds| - sent + 1 else 0
  {
    if sent <= |ds| {
      var n := ChunkLength(ds);
      ChunkSizes(ds[n..], sent + 1);
      var r := Chunks(ds, sent);
      var rest := Chunks(ds[n..], sent + 1);
      assert r == [ds[..n]] + rest;
      forall k | 0 <= k < |r|
        ensures |r[k]| <= ChunkSize
        ensures k < |r| - 1 ==> |r[k]| == ChunkSize
        ensures |r[k]| == 0 ==> k == 0 && sent == 0 && ds == []
      {
        if k == 0 {
          assert r[0] == ds[..n];
          assert |r[0]| == n;
          if rest != [] {
            // another turn needs a destination left after this chunk
            assert sent + 1 <= |ds[n..]|;
            assert n == ChunkSize;
          }
        } else {
          assert r[k] == rest[k - 1];
          assert |rest[k - 1]| <= ChunkSize;
        }
      }
    }
  }

  /** What the loop as written leaves in the array. */
  function Unsent(ds: seq<BulkDestination>, sent: nat): (r: seq<BulkDestination>)
    // never more than the array held, all of it once the loop has stopped
    ensures |r| <= |ds|
    ensures sent > |ds| ==> r == ds
    decreases if sent <= |ds| then |ds| - sent + 1 else 0
  {
    if sent <= |ds| then Unsent(ds[ChunkLength(ds)..], sent + 1) else ds
  }

  /** No destination is lost or reordered: the chunks taken, then what is
      left, are the original list. */
  lemma {:induction false} ChunksThenUnsent(ds: seq<BulkDestination>, sent: nat)
    ensures Flatten(Chunks(ds, sent)) + Unsent(ds, sent) == ds
    decreases if sent <= |ds| then |ds| - sent + 1 else 0
  {
    if sent <= |ds| {
      var n := ChunkLength(ds);
      ChunksThenUnsent(ds[n..], sent + 1);
      ChunksStep(ds, sent);
      FlattenCons(ds[..n], Chunks(ds[n..], sent + 1));
    }
  }

  /** One turn of the loop as written: a chunk is spliced off the front. */
  lemma ChunksStep(ds: seq<BulkDestination>, sent: nat)
    requires sent <= |ds|
    ensures ds == ds[..ChunkLength(ds)] + ds[ChunkLength(ds)..]
    ensures Chunks(ds, sent) == [ds[..ChunkLength(ds)]] + Chunks(ds[ChunkLength(ds)..], sent + 1)
  {
  }

  /** The number of turns as written, counted from a turn where `sent`
      chunks of 50 have gone from a list of `total`: the loop stops at the
      first turn `t > 0` with `51 * t > total`. */
  lemma {:induction false} ChunkCountFrom(ds: seq<BulkDestination>, sent: nat, total: nat)
    requires |ds| == total - ChunkSize * sent
    requires (ChunkSize + 1) * sent <= total
    ensures |Chunks(ds, sent)| == total / 51 + 1 - sent
    ensures |Unsent(ds, sent)| == if total >= 50 * (total / 51 + 1) then total - 50 * (total / 51 + 1) else 0
    decreases total - 51 * sent
  {
    var n := ChunkLength(ds);
    ChunksStep(ds, sent);
    if 51 * (sent + 1) <= total {
      assert n == ChunkSize;
      ChunkCountFrom(ds[n..], sent + 1, total);
    } else {
      assert total / 51 == sent;
      assert Chunks(ds[n..], sent + 1) == [];
      assert Unsent(ds[n..], sent + 1) == ds[n..];
    }
  }

  /** The loop as written makes `N / 51 + 1` calls for `N` destinations and
      leaves destinations unsent exactly when `N - 50 (N / 51 + 1) > 0`
      (101, 151, 152, 201 to 203, ...); fewer are left than calls were
      made. */
  lemma AsWrittenCounts(ds: seq<BulkDestination>)
    ensures |Chunks(ds, 0)| == |ds| / 51 + 1
    ensures |Unsent(ds, 0)| == if |ds| >= 50 * (|ds| / 51 + 1) then |ds| - 50 * (|ds| / 51 + 1) else 0
    ensures |ds| <= 100 ==> Unsent(ds, 0) == []
    ensures |Unsent(ds, 0)| < |Chunks(ds, 0)|
  {
    ChunkCountFrom(ds, 0, |ds|);
  }

  /** Destination counts the loop as written meets: none gives one call
      with an empty list; 50 one call; 51 two; 120 three; 101 two calls and
      one destination never sent. */
  lemma AsWrittenExamples(ds: seq<BulkDestination>)
    ensures |ds| == 0 ==> Chunks(ds, 0) == [[]]
    ensures |ds| == 50 ==> |Chunks(ds, 0)| == 1 && Unsent(ds, 0) == []
    ensures |ds| == 51 ==> |Chunks(ds, 0)| == 2 && Unsent(ds, 0) == []
    ensures |ds| == 120 ==> |Chunks(ds, 0)| == 3 && Unsent(ds, 0) == []
    ensures |ds| == 101 ==> |Chunks(ds, 0)| == 2 && |Unsent(ds, 0)| == 1
  {
    AsWrittenCounts(ds);
    if |ds| == 0 {
      assert Chunks(ds, 0) == [ds[..0]] + Chunks(ds[0..], 1);
      assert ds[..0] == [];
    }
  }

  /** The chunks of the evidently intended loop, which splices until the
      array is empty (`while (destinations.length > 0)`). */
  function Drain(ds: seq<BulkDestination>): (r: seq<Chunk>)
    ensures r == [] <==> ds == []
    ensures r != [] ==> r[0] == ds[..ChunkLength(ds)]
    decreases |ds|
  {
    if ds == [] then [] else [ds[..ChunkLength(ds)]] + Drain(ds[ChunkLength(ds)..])
  }

  /** The intended loop sends every destination exactly once, in order, in
      `ceil(N / 50)` non-empty chunks within the provider's limit. */
  lemma {:induction false} DrainSendsAll(ds: seq<BulkDestination>)
    ensures Flatten(Drain(ds)) == ds
    ensures |Drain(ds)| == (|ds| + ChunkSize - 1) / ChunkSize
    ensures forall k :: 0 <= k < |Drain(ds)| ==> 0 < |Drain(ds)[k]| <= ChunkSize
    decreases |ds|
  {
    if ds != [] {
      var n := ChunkLength(ds);
      DrainSendsAll(ds[n..]);
      assert Drain(ds) == [ds[..n]] + Drain(ds[n..]);
      FlattenCons(ds[..n], Drain(ds[n..]));
      assert ds == ds[..n] + ds[n..];
      forall k | 0 <= k < |Drain(ds)|
        ensures 0 < |Drain(ds)[k]| <= ChunkSize
      {
        if k > 0 {
          assert Drain(ds)[k] == Drain(ds[n..])[k - 1];
        }
      }
    }
  }

  /** From 1 to 100 destinations the loop as written takes the same chunks
      as the intended one. */
  lemma AsWrittenAgreesUpTo100(ds: seq<BulkDestination>)
    requires 1 <= |ds| <= 100
    ensures Chunks(ds, 0) == Drain(ds)
  {
    var n := ChunkLength(ds);
    ChunksStep(ds, 0);
    assert Drain(ds) == [ds[..n]] + Drain(ds[n..]);
    var rest := ds[n..];
    if rest != [] {
      ChunksStep(rest, 1);
      assert ChunkLength(rest) == |rest|;
      assert rest[|rest|..] == [];
      assert Drain(rest) == [rest[..|rest|]] + Drain(rest[|rest|..]);
    }
  }

  /** With 101 destinations the loop as written stops after two calls and
      the last destination is never sent, while the intended loop sends all
      of them. */
  lemma AsWrittenLeavesOneOf101(ds: seq<BulkDestination>)
    requires |ds| == 101
    ensures |Chunks(ds, 0)| == 2 && Unsent(ds, 0) == [ds[100]]
    ensures Flatten(Chunks(ds, 0)) == ds[..100] != ds
    ensures Flatten(Drain(ds)) == ds && |Drain(ds)| == 3
  {
    AsWrittenCounts(ds);
    ChunksThenUnsent(ds, 0);
    DrainSendsAll(ds);
    var unsent := Unsent(ds, 0);
    assert Flatten(Chunks(ds, 0)) + unsent == ds;
    assert |Flatten(Chunks(ds, 0))| == 100;
    assert Flatten(Chunks(ds, 0)) == ds[..100];
    assert unsent == ds[100..];
    assert |ds[..100]| != |ds|;
  }

  /** The parameters every command of one bulk send shares; each command
      fills in its chunk. */
  function BaseParams(req: BulkMailRequest, senderLabel: string): (p: BulkParams)
    ensures p.template == req.emailTemplate && p.defaultTemplateData == req.templateData
    ensures TrackingKeyIsDefault(p.defaultTags) && p.destinations == []
    ensures p.defaultTags == BulkTags(req.messageTag)
    ensures p.source == BulkSource(senderLabel, req.sendingEmailAddress)
  {
    BulkParams(req.emailTemplate, req.templateData, BulkTags(req.messageTag), [],
               BulkSource(senderLabel, req.sendingEmailAddress))
  }

  /** How a bulk send went: the commands sent, the responses or the error
      thrown, and what was left in the array. */
  datatype BulkRun = BulkRun(calls: seq<BulkParams>, result: Result<seq<string>>, unsent: seq<BulkDestination>)

  /** A command that was answered, followed by the rest of the run. */
  function Then(p: BulkParams, response: string, run: BulkRun): BulkRun
  {
    BulkRun([p] + run.calls, if run.result.Ok? then Ok([response] + run.result.value) else run.result, run.unsent)
  }

  /** A run that follows commands already answered with `responses`. */
  function After(calls: seq<BulkParams>, responses: seq<string>, run: BulkRun): BulkRun
  {
    BulkRun(calls + run.calls, if run.result.Ok? then Ok(responses + run.result.value) else run.result, run.unsent)
  }

  /** The bulk send as written from the point where `sent` chunks have gone
      and `ds` is left in the array: splice a chunk, send its command, stop
      at the first error the client throws. */
  function Run(base: BulkParams, ses: SesClient, ds: seq<BulkDestination>, sent: nat): (r: BulkRun)
    // no turn due: no command, no response, the array untouched
    ensures sent > |ds| ==> r == BulkRun([], Ok([]), ds)
    // a turn due: the first command carries the front chunk; a throw ends the run there
    ensures sent <= |ds| ==> r.calls != [] && r.calls[0] == base.(destinations := ds[..ChunkLength(ds)])
    ensures sent <= |ds| && ses(base.(destinations := ds[..ChunkLength(ds)])).SesThrew? ==>
              r == BulkRun([base.(destinations := ds[..ChunkLength(ds)])],
                           Err(Error(ses(base.(destinations := ds[..ChunkLength(ds)])).message)),
                           ds[ChunkLength(ds)..])
    decreases if sent <= |ds| then |ds| - sent + 1 else 0
  {
    if sent <= |ds| then
      var p := base.(destinations := ds[..ChunkLength(ds)]);
      match ses(p)
      case SesThrew(message) => BulkRun([p], Err(Error(message)), ds[ChunkLength(ds)..])
      case SesAccepted(response) => Then(p, response, Run(base, ses, ds[ChunkLength(ds)..], sent + 1))
    else BulkRun([], Ok([]), ds)
  }

  lemma AfterThen(calls: seq<BulkParams>, responses: seq<string>, p: BulkParams, response: string, run: BulkRun)
    ensures After(calls, responses, Then(p, response, run)) == After(calls + [p], responses + [response], run)
  {
    assert calls + ([p] + run.calls) == (calls + [p]) + run.calls;
    if run.result.Ok? {
      assert responses + ([response] + run.result.value) == (responses + [response]) + run.result.value;
    }
  }

  /** The commands of a run are those of the first chunks the loop as
      written takes, and there is at least one when a turn is due. */
  lemma {:induction false} RunSendsChunks(base: BulkParams, ses: SesClient, ds: seq<BulkDestination>, sent: nat)
    ensures |Run(base, ses, ds, sent).calls| <= |Chunks(ds, sent)|
    ensures sent <= |ds| ==> 1 <= |Run(base, ses, ds, sent).calls|
    ensures forall k :: 0 <= k < |Run(base, ses, ds, sent).calls| ==>
              Run(base, ses, ds, sent).calls[k] == base.(destinations := Chunks(ds, sent)[k])
    decreases if sent <= |ds| then |ds| - sent + 1 else 0
  {
    if sent <= |ds| {
      var n := ChunkLength(ds);
      var p := base.(destinations := ds[..n]);
      ChunksStep(ds, sent);
      if ses(p).SesAccepted? {
        var run := Run(base, ses, ds, sent);
        var rest := Run(base, ses, ds[n..], sent + 1);
        RunSendsChunks(base, ses, ds[n..], sent + 1);
        assert run.calls == [p] + rest.calls;
        forall k | 0 <= k < |run.calls|
          ensures run.calls[k] == base.(destinations := Chunks(ds, sent)[k])
        {
          if k > 0 {
            assert run.calls[k] == rest.calls[k - 1];
          }
        }
      }
    }
  }

  /** No destination is lost by a run: the chunks sent, then what is left
      in the array, are the original list. */
  lemma {:induction false} RunKeepsRest(base: BulkParams, ses: SesClient, ds: seq<BulkDestination>, sent: nat)
    ensures |Run(base, ses, ds, sent).calls| <= |Chunks(ds, sent)|
    ensures ds == Flatten(Chunks(ds, sent)[..|Run(base, ses, ds, sent).calls|]) + Run(base, ses, ds, sent).unsent
    decreases if sent <= |ds| then |ds| - sent + 1 else 0
  {
    RunSendsChunks(base, ses, ds, sent);
    if sent <= |ds| {
      var n := ChunkLength(ds);
      var p := base.(destinations := ds[..n]);
      ChunksStep(ds, sent);
      var chunks := Chunks(ds, sent);
      var run := Run(base, ses, ds, sent);
      if ses(p).SesThrew? {
        assert chunks[..|run.calls|] == [ds[..n]] + [];
        FlattenCons(ds[..n], []);
      } else {
        var rest := Run(base, ses, ds[n..], sent + 1);
        var later := Chunks(ds[n..], sent + 1);
        RunKeepsRest(base, ses, ds[n..], sent + 1);
        assert run.calls == [p] + rest.calls;
        assert chunks[..|run.calls|] == [ds[..n]] + later[..|rest.calls|];
        FlattenCons(ds[..n], later[..|rest.calls|]);
      }
    }
  }

  /** Every command of a run but the last was answered. */
  lemma {:induction false} RunAnswered(base: BulkParams, ses: SesClient, ds: seq<BulkDestination>, sent: nat)
    ensures forall k :: 0 <= k < |Run(base, ses, ds, sent).calls| - 1 ==>
              ses(Run(base, ses, ds, sent).calls[k]).SesAccepted?
    decreases if sent <= |ds| then |ds| - sent + 1 else 0
  {
    if sent <= |ds| {
      var n := ChunkLength(ds);
      var p := base.(destinations := ds[..n]);
      if ses(p).SesAccepted? {
        var run := Run(base, ses, ds, sent);
        var rest := Run(base, ses, ds[n..], sent + 1);
        RunAnswered(base, ses, ds[n..], sent + 1);
        assert run.calls == [p] + rest.calls;
        forall k | 0 <= k < |run.calls| - 1
          ensures ses(run.calls[k]).SesAccepted?
        {
          if k > 0 {
            assert run.calls[k] == rest.calls[k - 1];
          }
        }
      }
    }
  }

  /** A run succeeds only when every chunk was sent, and then with one
      response per command, in order. */
  lemma {:induction false} RunSucceeds(base: BulkParams, ses: SesClient, ds: seq<BulkDestination>, sent: nat)
    requires Run(base, ses, ds, sent).result.Ok?
    ensures |Run(base, ses, ds, sent).calls| == |Chunks(ds, sent)|
    ensures |Run(base, ses, ds, sent).result.value| == |Run(base, ses, ds, sent).calls|
    ensures forall k :: 0 <= k < |Run(base, ses, ds, sent).calls| ==>
              ses(Run(base, ses, ds, sent).calls[k]) == SesAccepted(Run(base, ses, ds, sent).result.value[k])
    decreases if sent <= |ds| then |ds| - sent + 1 else 0
  {
    if sent <= |ds| {
      var n := ChunkLength(ds);
      var p := base.(destinations := ds[..n]);
      ChunksStep(ds, sent);
      var response := ses(p).response;
      var run := Run(base, ses, ds, sent);
      var rest := Run(base, ses, ds[n..], sent + 1);
      RunSucceeds(base, ses, ds[n..], sent + 1);
      assert run == Then(p, response, rest);
      forall k | 0 <= k < |run.calls|
        ensures ses(run.calls[k]) == SesAccepted(run.result.value[k])
      {
        if k > 0 {
          assert run.calls[k] == rest.calls[k - 1];
          assert run.result.value[k] == rest.result.value[k - 1];
        }
      }
    }
  }

  /** A run that fails made at least one command, and fails with what the
      client threw for the last one. */
  lemma {:induction false} RunFails(base: BulkParams, ses: SesClient, ds: seq<BulkDestination>, sent: nat)
    requires Run(base, ses, ds, sent).result.Err?
    ensures Run(base, ses, ds, sent).calls != []
    ensures ses(Run(base, ses, ds, sent).calls[|Run(base, ses, ds, sent).calls| - 1])
            == SesThrew(Run(base, ses, ds, sent).result.error.message)
    decreases if sent <= |ds| then |ds| - sent + 1 else 0
  {
    var n := ChunkLength(ds);
    var p := base.(destinations := ds[..n]);
    if ses(p).SesAccepted? {
      var run := Run(base, ses, ds, sent);
      var rest := Run(base, ses, ds[n..], sent + 1);
      RunFails(base, ses, ds[n..], sent + 1);
      assert run.calls == [p] + rest.calls;
      assert run.calls[|run.calls| - 1] == rest.calls[|rest.calls| - 1];
    }
  }

  /** `sendBulkEmail`: the commands sent, the responses or the error
      thrown, and the array left behind are those of the bulk send as
      written. */
  method SendBulkEmail(req: BulkMailRequest, senderLabel: string, ses: SesClient)
    returns (r: Result<seq<string>>, calls: seq<BulkParams>)
    modifies req
    ensures BulkRun(calls, r, req.destinations) == Run(BaseParams(req, senderLabel), ses, old(req.destinations), 0)
  {
    ghost var base := BaseParams(req, senderLabel);
    ghost var run := Run(base, ses, req.destinations, 0);
    var messageTags := BulkTags(req.messageTag);
    var sentEmails: seq<Chunk> := [];
    var sesResponses: seq<string> := [];
    calls := [];
    var source := BulkSource(senderLabel, req.sendingEmailAddress);
    assert [] + run.calls == run.calls;
    assert run.result.Ok? ==> [] + run.result.value == run.result.value;

    while |sentEmails| <= |req.destinations|
      invariant run == After(calls, sesResponses, Run(base, ses, req.destinations, |sentEmails|))
      decreases if |sentEmails| <= |req.destinations| then |req.destinations| - |sentEmails| + 1 else 0
    {
      ghost var before := req.destinations;
      // there is a limit of 50 destinations per bulk command
      var destinations := req.Splice(ChunkSize);
      assert destinations == before[..ChunkLength(before)] && req.destinations == before[ChunkLength(before)..];

      var params := BulkParams(req.emailTemplate, req.templateData, messageTags, destinations, source);
      assert params == base.(destinations := destinations);
      calls := calls + [params];
      var reply := ses(params);
      if reply.SesThrew? {
        assert Run(base, ses, before, |sentEmails|) == BulkRun([params], Err(Error(reply.message)), req.destinations);
        return Err(Error(reply.message)), calls;
      }
      AfterThen(calls[..|calls| - 1], sesResponses, params, reply.response,
                Run(base, ses, req.destinations, |sentEmails| + 1));
      assert calls[..|calls| - 1] + [params] == calls;
      sesResponses := sesResponses + [reply.response];
      sentEmails := sentEmails + [destinations];
    }
    assert calls + [] == calls && sesResponses + [] == sesResponses;
    r := Ok(sesResponses);
  }
}
