/** What happens after a generation request has been posted: reading the
    task id, polling the result endpoint (get_task_result) and extracting
    the sample URL from the final result. */
module Polling {
  import opened Values

  /** get_task_result gives up after this many status requests. */
  const MaxAttempts := 30

  /** The reply to the i-th status request. A request past the end of the
      recorded replies is one that failed. */
  function ReplyAt(replies: seq<Reply>, i: nat): Reply {
    if i < |replies| then replies[i] else RequestFailed
  }

  /** What one status reply makes the polling loop do. */
  datatype Step = Pending | Ready(result: Json) | Failed | Raise(error: Error)

  /** The reply's status field compared with "Ready" and "failed". Any other
      status keeps polling; a reply that is not a dict raises TypeError and
      one without a status raises KeyError. */
  function StatusStep(reply: Reply): (s: Step)
    ensures s.Ready? <==> reply.Received? && reply.body.Obj? && "status" in reply.body.fields
                          && reply.body.fields["status"] == Str("Ready")
    ensures s.Ready? ==> s.result == reply.body
    ensures s.Failed? <==> reply.Received? && reply.body.Obj? && "status" in reply.body.fields
                           && reply.body.fields["status"] == Str("failed")
    ensures s.Raise? <==> reply.RequestFailed? || !reply.body.Obj? || "status" !in reply.body.fields
  {
    match reply
    case RequestFailed => Raise(RequestException)
    case Received(body) =>
      match body
      case Obj(fields) =>
        if "status" !in fields then Raise(KeyError("status"))
        else if fields["status"] == Str("Ready") then Ready(body)
        else if fields["status"] == Str("failed") then Failed
        else Pending
      case _ => Raise(TypeError)
  }

  /** What get_task_result returns when a reply decides the outcome:
      the ready reply itself, None for a failed task, or the exception. */
  function Decided(s: Step): Result<Option<Json>>
    requires !s.Pending?
  {
    match s
    case Ready(r) => Ok(Some(r))
    case Failed => Ok(None)
    case Raise(e) => Raised(e)
  }

  /** The outcome of polling and how many status requests it issued. */
  datatype Polled = Polled(result: Result<Option<Json>>, requests: nat)

  /** Polling from attempt number `attempt` on. */
  function PollFrom(replies: seq<Reply>, attempt: nat): (p: Polled)
    requires attempt <= MaxAttempts
    ensures attempt <= p.requests <= MaxAttempts
    ensures p.requests == attempt ==> attempt == MaxAttempts && p.result == Ok(None)
    decreases MaxAttempts - attempt
  {
    if attempt == MaxAttempts then Polled(Ok(None), attempt)
    else
      var step := StatusStep(ReplyAt(replies, attempt));
      if step.Pending? then PollFrom(replies, attempt + 1)
      else Polled(Decided(step), attempt + 1)
  }

  /** The outcome of get_task_result for the given replies. */
  function Poll(replies: seq<Reply>): Polled {
    PollFrom(replies, 0)
  }

  /** Every status reply in [from, to) keeps the loop polling. */
  predicate PendingBetween(replies: seq<Reply>, from: nat, to: nat) {
    forall j: nat | from <= j < to :: StatusStep(ReplyAt(replies, j)).Pending?
  }

  /** Polling stops at the first reply that is ready, failed or raises:
      it returns what that reply decides, after exactly i + 1 requests. */
  lemma {:induction false} PollStopsAtFirstDecision(replies: seq<Reply>, attempt: nat, i: nat)
    requires attempt <= i < MaxAttempts
    requires PendingBetween(replies, attempt, i)
    requires !StatusStep(ReplyAt(replies, i)).Pending?
    ensures PollFrom(replies, attempt) == Polled(Decided(StatusStep(ReplyAt(replies, i))), i + 1)
    decreases i - attempt
  {
    if attempt < i {
      assert StatusStep(ReplyAt(replies, attempt)).Pending?;
      PollStopsAtFirstDecision(replies, attempt + 1, i);
    }
  }

  /** When no reply among the 30 decides, polling times out with None after
      exactly 30 requests. */
  lemma {:induction false} PollTimesOut(replies: seq<Reply>, attempt: nat)
    requires attempt <= MaxAttempts
    requires PendingBetween(replies, attempt, MaxAttempts)
    ensures PollFrom(replies, attempt) == Polled(Ok(None), MaxAttempts)
    decreases MaxAttempts - attempt
  {
    if attempt < MaxAttempts {
      assert StatusStep(ReplyAt(replies, attempt)).Pending?;
      PollTimesOut(replies, attempt + 1);
    }
  }

  /** Conversely, a result comes only from the last reply read, which is
      ready and preceded only by replies that kept the loop polling. */
  lemma {:induction false} PollResultIsLastReply(replies: seq<Reply>, attempt: nat)
    requires attempt <= MaxAttempts
    ensures var p := PollFrom(replies, attempt);
      && PendingBetween(replies, attempt, p.requests - 1)
      && (p.result.Ok? && p.result.value.Some? ==>
            attempt < p.requests && StatusStep(ReplyAt(replies, p.requests - 1)) == Ready(p.result.value.value))
    decreases MaxAttempts - attempt
  {
    if attempt < MaxAttempts && StatusStep(ReplyAt(replies, attempt)).Pending? {
      PollResultIsLastReply(replies, attempt + 1);
    }
  }

  /** get_task_result: poll the status endpoint at most 30 times, returning
      the first ready reply, or None on a failed task or on timeout. */
  method GetTaskResult(replies: seq<Reply>) returns (result: Result<Option<Json>>, requests: nat)
    ensures Polled(result, requests) == Poll(replies)
    ensures 1 <= requests <= MaxAttempts
  {
    var attempt := 0;
    while attempt < MaxAttempts
      invariant 0 <= attempt <= MaxAttempts
      invariant PollFrom(replies, attempt) == Poll(replies)
    {
      var reply := ReplyAt(replies, attempt);
      if reply.RequestFailed? {
        return Raised(RequestException), attempt + 1;
      }
      if !reply.body.Obj? {
        return Raised(TypeError), attempt + 1;
      }
      var fields := reply.body.fields;
      if "status" !in fields {
        return Raised(KeyError("status")), attempt + 1;
      }
      if fields["status"] == Str("Ready") {
        return Ok(Some(reply.body)), attempt + 1;
      } else if fields["status"] == Str("failed") {
        return Ok(None), attempt + 1;
      }
      attempt := attempt + 1;
    }
    return Ok(None), MaxAttempts;
  }

  /** The task id read from the reply to the generation POST (null when the
      reply has none); a reply that is not a dict raises AttributeError. */
  function TaskId(submit: Reply): (r: Result<Json>)
    ensures r.Ok? <==> submit.Received? && submit.body.Obj?
    ensures r.Ok? ==> (Truthy(r.value) <==> "id" in submit.body.fields && Truthy(submit.body.fields["id"]))
  {
    match submit
    case RequestFailed => Raised(RequestException)
    case Received(body) =>
      match body
      case Obj(fields) => Ok(Get(fields, "id", Null))
      case _ => Raised(AttributeError)
  }

  /** The sample of a poll result: the `sample` field of its `result` field
      when the poll result is truthy and that sample is present and truthy,
      otherwise None. A missing `result` field counts as an empty dict; a
      `result` that is present but not a dict raises AttributeError. */
  function ExtractSample(result: Option<Json>): (r: Result<Option<Json>>)
    ensures r.Ok? && r.value.Some? <==>
      && result.Some? && result.value.Obj? && "result" in result.value.fields
      && result.value.fields["result"].Obj? && "sample" in result.value.fields["result"].fields
      && Truthy(result.value.fields["result"].fields["sample"])
    ensures r.Ok? && r.value.Some? ==> r.value.value == result.value.fields["result"].fields["sample"]
    ensures r.Raised? <==>
      && result.Some? && Truthy(result.value)
      && (!result.value.Obj? || ("result" in result.value.fields && !result.value.fields["result"].Obj?))
    ensures r.Raised? ==> r.error == AttributeError
  {
    if result.None? || !Truthy(result.value) then Ok(None)
    else
      match result.value
      case Obj(fields) =>
        (match Get(fields, "result", Obj(map[]))
         case Obj(inner) =>
           var sample := Get(inner, "sample", Null);
           if Truthy(sample) then Ok(Some(sample)) else Ok(None)
         case _ => Raised(AttributeError))
      case _ => Raised(AttributeError)
  }

  /** The tail shared by the four generation methods, from the reply to their
      POST: no truthy task id gives None without polling; otherwise poll and
      extract the sample. */
  function TaskOutcome(submit: Reply, replies: seq<Reply>): (r: Result<Option<Json>>)
    ensures TaskId(submit).Ok? && !Truthy(TaskId(submit).value) ==> r == Ok(None)
    ensures TaskId(submit).Raised? ==> r == Raised(TaskId(submit).error)
    ensures TaskId(submit).Ok? && Truthy(TaskId(submit).value) && Poll(replies).result.Raised? ==>
      r == Raised(Poll(replies).result.error)
    ensures TaskId(submit).Ok? && Truthy(TaskId(submit).value) && Poll(replies).result.Ok? ==>
      r == ExtractSample(Poll(replies).result.value)
    ensures r.Ok? && r.value.Some? ==> Truthy(r.value.value)
  {
    match TaskId(submit)
    case Raised(e) => Raised(e)
    case Ok(id) =>
      if !Truthy(id) then Ok(None)
      else
        match Poll(replies).result
        case Raised(e) => Raised(e)
        case Ok(result) => ExtractSample(result)
  }

  /** A generation method returns a sample only when its POST yielded a task
      id, and then it is the result.sample field of the first ready status reply,
      every earlier reply having kept the loop polling. */
  lemma SampleComesFromFirstReadyReply(submit: Reply, replies: seq<Reply>, sample: Json)
    requires TaskOutcome(submit, replies) == Ok(Some(sample))
    ensures TaskId(submit).Ok? && Truthy(TaskId(submit).value)
    ensures var i := Poll(replies).requests - 1;
      && 0 <= i < MaxAttempts
      && PendingBetween(replies, 0, i)
      && ReplyAt(replies, i).Received?
      && StatusStep(ReplyAt(replies, i)) == Ready(ReplyAt(replies, i).body)
      && var body := ReplyAt(replies, i).body;
         body.Obj? && "result" in body.fields && body.fields["result"].Obj?
         && "sample" in body.fields["result"].fields && body.fields["result"].fields["sample"] == sample
  {
    PollResultIsLastReply(replies, 0);
  }

  /** Conversely, with a truthy task id, when every status reply before the
      i-th kept the loop polling and the i-th is ready with a truthy
      result.sample, the generation method returns that sample. */
  lemma ReadyReplyYieldsSample(submit: Reply, replies: seq<Reply>, i: nat)
    requires TaskId(submit).Ok? && Truthy(TaskId(submit).value)
    requires i < MaxAttempts
    requires PendingBetween(replies, 0, i)
    requires StatusStep(ReplyAt(replies, i)).Ready?
    requires var body := ReplyAt(replies, i).body;
      && "result" in body.fields && body.fields["result"].Obj?
      && "sample" in body.fields["result"].fields && Truthy(body.fields["result"].fields["sample"])
    ensures TaskOutcome(submit, replies) == Ok(Some(ReplyAt(replies, i).body.fields["result"].fields["sample"]))
  {
    PollStopsAtFirstDecision(replies, 0, i);
  }

  /** With a truthy task id, a first deciding status reply that reports a
      failed task makes the generation method return None. */
  lemma FailedTaskGivesNone(submit: Reply, replies: seq<Reply>, i: nat)
    requires TaskId(submit).Ok? && Truthy(TaskId(submit).value)
    requires i < MaxAttempts
    requires PendingBetween(replies, 0, i)
    requires StatusStep(ReplyAt(replies, i)).Failed?
    ensures TaskOutcome(submit, replies) == Ok(None)
  {
    PollStopsAtFirstDecision(replies, 0, i);
  }

  /** With a truthy task id, 30 status replies that all keep the loop
      polling make the generation method return None. */
  lemma TimeoutGivesNone(submit: Reply, replies: seq<Reply>)
    requires TaskId(submit).Ok? && Truthy(TaskId(submit).value)
    requires PendingBetween(replies, 0, MaxAttempts)
    ensures TaskOutcome(submit, replies) == Ok(None)
  {
    PollTimesOut(replies, 0);
  }

  /** The generation methods' shared tail, as the source runs it: the status
      requests happen only when the POST yielded a truthy task id. */
  method AwaitSample(submit: Reply, replies: seq<Reply>) returns (image: Result<Option<Json>>, requests: nat)
    ensures image == TaskOutcome(submit, replies)
    ensures requests == (if TaskId(submit).Ok? && Truthy(TaskId(submit).value) then Poll(replies).requests else 0)
    ensures requests <= MaxAttempts
  {
    var id := TaskId(submit);
    if id.Raised? {
      return Raised(id.error), 0;
    }
    if !Truthy(id.value) {
      return Ok(None), 0;
    }
    var result;
    result, requests := GetTaskResult(replies);
    if result.Raised? {
      return Raised(result.error), requests;
    }
    image := ExtractSample(result.value);
  }
}
