/** The bulk account creator. Requests are cut into consecutive batches of
    `batch_size`. For each request an account is created through the
    Organizations service and polled until its job leaves IN_PROGRESS; a
    created account then gets one Control Tower control and its tags. Each
    batch's results are published once to the notification topic.

    The services are replaced by scripted replies (`Script`), and every call
    the creator makes is recorded, in order, in its `log`. */
module BulkCreation {
  import opened Json

  // ---------------------------------------------------------------------
  // The services' side.

  /** A service's answer to one call: a value, or a `ClientError` whose text
      (`str(e)`) is `message`. */
  datatype Reply<+T> = Replied(value: T) | ClientError(message: string)

  const InProgress: string := "IN_PROGRESS"
  const Succeeded: string := "SUCCEEDED"

  /** A `CreateAccountStatus` record: the job id, its state, and the
      optional `AccountId` and `FailureReason` entries. */
  datatype JobStatus = JobStatus(id: string, state: string, accountId: Option<string>,
                                 failureReason: Option<string>)

  /** What the services answer for one request: `create_account`'s status,
      the successive `describe_create_account_status` replies, and whether
      `enable_control` and `tag_resource` raise a ClientError (Some(text))
      or succeed (None). */
  datatype Script = Script(create: Reply<JobStatus>, polls: seq<Reply<JobStatus>>,
                           enableError: Option<string>, tagError: Option<string>)

  /** One `{'Key': k, 'Value': v}` entry of the tag list. */
  datatype Tag = Tag(key: string, value: Json)

  /** The `summary` object of a batch notification. */
  datatype Summary = Summary(total: nat, success: nat, failed: nat)

  /** A call the creator makes to a service. */
  datatype Call =
    | CreateAccount(email: Json, accountName: Json, roleName: string, billingAccess: string)
    | DescribeCreateAccountStatus(requestId: string)
    | EnableControl(control: string, target: string)
    | TagResource(resourceId: string, tags: seq<Tag>)
    | Publish(topicArn: string, batchResults: seq<CreationResult>, summary: Summary)

  const RoleName: string := "OrganizationAccountAccessRole"
  const BillingAccess: string := "ALLOW"
  const GuardrailControl: string := "AWS-GR_AUTOSCALING_LAUNCH_CONFIG_PUBLIC_IP_DISABLED"
  const DefaultTopicArn: string := "arn:aws:sns:region:account-id:aft-pipeline-notifications"
  const DefaultBatchSize: int := 10
  const UnknownError: string := "Unknown error"

  // ---------------------------------------------------------------------
  // The creator's records.

  datatype CreationStatus = Pending | Success | Failed

  /** The `result` dict of one request. */
  datatype CreationResult = CreationResult(request: Json, status: CreationStatus,
                                           accountId: Option<string>, error: Option<string>)

  /** What SNS answers to the publication of a batch's results: None when
      `publish` returns, Some(text) when it raises a ClientError. */
  type PublishReply = seq<CreationResult> -> Option<string>

  /** The dict `create_accounts` returns. */
  datatype Totals = Totals(totalRequests: nat, successfulCreations: nat, failedCreations: nat,
                           results: seq<CreationResult>)

  /** What a step does: its outcome (a value, or an exception other than
      ClientError, which escapes) and the calls it makes. */
  datatype Run<+T> = Run(outcome: Outcome<T>, calls: seq<Call>)

  function Min(a: int, b: int): int {
    if a <= b then a else b
  }

  // ---------------------------------------------------------------------
  // Polling.

  /** The scripted polls take the job out of IN_PROGRESS, or raise, before
      they run out. */
  predicate Settles(status: JobStatus, replies: seq<Reply<JobStatus>>)
    decreases |replies|
  {
    status.state != InProgress ||
    (|replies| > 0 && (replies[0].ClientError? || Settles(replies[0].value, replies[1..])))
  }

  /** Where polling ends: the first status that is not IN_PROGRESS, or the
      ClientError a poll raised; `calls` are the polls made. */
  datatype Polled = Polled(final: Reply<JobStatus>, calls: seq<Call>)

  /** `while create_status['State'] == 'IN_PROGRESS': poll`. */
  function Poll(status: JobStatus, replies: seq<Reply<JobStatus>>): Polled
    requires Settles(status, replies)
    decreases |replies|
  {
    if status.state != InProgress then Polled(Replied(status), [])
    else
      var ask := DescribeCreateAccountStatus(status.id);
      match replies[0]
      case ClientError(m) => Polled(ClientError(m), [ask])
      case Replied(next) =>
        var rest := Poll(next, replies[1..]);
        Polled(rest.final, [ask] + rest.calls)
  }

  /** Polling asks about the job of each IN_PROGRESS status in turn and
      stops at the first reply that is not IN_PROGRESS: no poll at all when
      the first status is already settled. */
  lemma {:induction false} PollStopsAtFirstSettled(status: JobStatus, replies: seq<Reply<JobStatus>>)
    requires Settles(status, replies)
    ensures var p := Poll(status, replies);
            var n := |p.calls|;
            && n <= |replies|
            && (n == 0 <==> status.state != InProgress)
            && (n == 0 ==> p.final == Replied(status))
            && (n > 0 ==> p.final == replies[n - 1] && p.calls[0] == DescribeCreateAccountStatus(status.id))
            && (p.final.Replied? ==> p.final.value.state != InProgress)
            && (forall j :: 0 <= j < n - 1 ==>
                  && replies[j].Replied? && replies[j].value.state == InProgress
                  && p.calls[j + 1] == DescribeCreateAccountStatus(replies[j].value.id))
    decreases |replies|
  {
    if status.state == InProgress && replies[0].Replied? {
      PollStopsAtFirstSettled(replies[0].value, replies[1..]);
    }
  }

  /** One poll of an IN_PROGRESS job: its reply either raised, or polling
      goes on from the status it returned. */
  lemma PollStep(status: JobStatus, replies: seq<Reply<JobStatus>>)
    requires status.state == InProgress && Settles(status, replies)
    ensures var ask := DescribeCreateAccountStatus(status.id);
            && replies != []
            && (replies[0].ClientError? ==> Poll(status, replies) == Polled(replies[0], [ask]))
            && (replies[0].Replied? ==>
                  && Settles(replies[0].value, replies[1..])
                  && Poll(status, replies).final == Poll(replies[0].value, replies[1..]).final
                  && Poll(status, replies).calls == [ask] + Poll(replies[0].value, replies[1..]).calls)
  {
  }

  /** Polling starts with no poll made. */
  lemma PollBegins(status: JobStatus, replies: seq<Reply<JobStatus>>)
    requires Settles(status, replies)
    ensures Awaiting(Poll(status, replies), status, replies, [])
  {
  }

  /** Polling stops at a status that is no longer IN_PROGRESS. */
  lemma PollEnds(whole: Polled, status: JobStatus, replies: seq<Reply<JobStatus>>, asked: seq<Call>)
    requires status.state != InProgress && Awaiting(whole, status, replies, asked)
    ensures whole == Polled(Replied(status), asked)
  {
  }

  /** Polling from `status` with `replies` still to come ends as `whole`
      does, and `asked` are the polls made before it. */
  ghost predicate Awaiting(whole: Polled, status: JobStatus, replies: seq<Reply<JobStatus>>, asked: seq<Call>) {
    && Settles(status, replies)
    && whole.final == Poll(status, replies).final
    && whole.calls == asked + Poll(status, replies).calls
  }

  /** The polling loop's invariant carried over one poll: the polls still
      to come are those after the reply just taken. */
  lemma PollAdvance(status: JobStatus, replies: seq<Reply<JobStatus>>, asked: seq<Call>, whole: Polled)
    requires status.state == InProgress && Awaiting(whole, status, replies, asked)
    ensures var ask := DescribeCreateAccountStatus(status.id);
            && replies != []
            && (replies[0].ClientError? ==> whole == Polled(replies[0], asked + [ask]))
            && (replies[0].Replied? ==> Awaiting(whole, replies[0].value, replies[1..], asked + [ask]))
  {
    PollStep(status, replies);
    if replies[0].Replied? {
      AppendAssociates(asked, [DescribeCreateAccountStatus(status.id)], Poll(replies[0].value, replies[1..]).calls);
    }
  }

  // ---------------------------------------------------------------------
  // Polling as written.
  //
  // The loop stores each `describe_create_account_status` response whole,
  // although the status sits under the response's `CreateAccountStatus`
  // key. The next test of the loop condition reads `State` from the
  // response and raises KeyError. `Poll` above is the evidently intended
  // loop, and the rest of the model uses it.

  /** What the loop holds in `create_status`: the status record that came
      with `create_account`'s response, or a whole poll response (whose
      top-level keys are `CreateAccountStatus` and `ResponseMetadata`). */
  datatype Held = StatusRecord(status: JobStatus) | PollResponse(status: JobStatus)

  /** `create_status['State']`. */
  function StateOf(held: Held): Outcome<string> {
    match held
    case StatusRecord(s) => Ok(s.state)
    case PollResponse(_) => Raised(KeyError("State"))
  }

  /** The polling loop as written: the last status read, a ClientError, or
      the KeyError of reading `State` from a stored response. */
  function PollAsWritten(held: Held, replies: seq<Reply<JobStatus>>): Run<Reply<JobStatus>>
    requires Settles(held.status, replies)
    decreases |replies|
  {
    match StateOf(held)
    case Raised(e) => Run(Raised(e), [])
    case Ok(state) =>
      if state != InProgress then Run(Ok(Replied(held.status)), [])
      else
        var ask := DescribeCreateAccountStatus(held.status.id);
        match replies[0]
        case ClientError(m) => Run(Ok(ClientError(m)), [ask])
        case Replied(next) =>
          var rest := PollAsWritten(PollResponse(next), replies[1..]);
          Run(rest.outcome, [ask] + rest.calls)
  }

  /** As written, polling agrees with the intended loop when no poll
      answers (the job was settled at once, or the first poll raised a
      ClientError), and otherwise raises KeyError('State') right after the
      first poll, whatever that poll answered; the intended loop goes on to
      the first settled status. */
  lemma PollAsWrittenDiffers(status: JobStatus, replies: seq<Reply<JobStatus>>)
    requires Settles(status, replies)
    ensures var written := PollAsWritten(StatusRecord(status), replies);
            var intended := Poll(status, replies);
            && (status.state != InProgress || replies[0].ClientError? ==>
                  written == Run(Ok(intended.final), intended.calls))
            && (status.state == InProgress && replies[0].Replied? ==>
                  && written == Run(Raised(KeyError("State")), [DescribeCreateAccountStatus(status.id)])
                  && intended.calls[0] == DescribeCreateAccountStatus(status.id)
                  && (intended.final.Replied? ==> intended.final.value.state != InProgress))
  {
    PollStopsAtFirstSettled(status, replies);
  }

  /** A job still IN_PROGRESS when created that has SUCCEEDED at the first
      poll: as written, `create_account` ends in KeyError('State'); the
      intended loop sees the success. */
  lemma PollEnvelopeCounterexample()
    ensures var created := JobStatus("car-1", InProgress, None, None);
            var done := JobStatus("car-1", Succeeded, Some("111122223333"), None);
            && PollAsWritten(StatusRecord(created), [Replied(done)]).outcome == Raised(KeyError("State"))
            && Poll(created, [Replied(done)]).final == Replied(done)
  {
    var created := JobStatus("car-1", InProgress, None, None);
    var done := JobStatus("car-1", Succeeded, Some("111122223333"), None);
    assert [Replied(done)][1..] == [];
    assert Settles(created, [Replied(done)]);
  }

  // ---------------------------------------------------------------------
  // One request: `create_account`.

  /** The scripted polls settle whenever the account creation is accepted. */
  predicate Scripted(script: Script) {
    script.create.Replied? ==> Settles(script.create.value, script.polls)
  }

  /** `request['account_request']['control_tower_parameters']` and its
      `AccountEmail` and `AccountName`, read in that order. */
  function Parameters(request: Json): Outcome<(Json, Json)> {
    match Subscript(request, "account_request")
    case Raised(e) => Raised(e)
    case Ok(accountRequest) =>
      match Subscript(accountRequest, "control_tower_parameters")
      case Raised(e) => Raised(e)
      case Ok(ctParams) =>
        match Subscript(ctParams, "AccountEmail")
        case Raised(e) => Raised(e)
        case Ok(email) =>
          match Subscript(ctParams, "AccountName")
          case Raised(e) => Raised(e)
          case Ok(name) => Ok((email, name))
  }

  /** The tag list: one `{Key, Value}` per item of
      `request['account_request']['account_tags']`, in order. */
  function TagsOf(request: Json): Outcome<seq<Tag>> {
    match Subscript(request, "account_request")
    case Raised(e) => Raised(e)
    case Ok(accountRequest) =>
      match Subscript(accountRequest, "account_tags")
      case Raised(e) => Raised(e)
      case Ok(accountTags) =>
        match Items(accountTags)
        case Raised(e) => Raised(e)
        case Ok(items) => Ok(seq(|items|, i requires 0 <= i < |items| => Tag(items[i].0, items[i].1)))
  }

  /** The failed result with `error` set. */
  function FailedWith(request: Json, accountId: Option<string>, message: string): CreationResult {
    CreationResult(request, Failed, accountId, Some(message))
  }

  /** After the job succeeded with account `id`: the control, then the tags. */
  function Provision(request: Json, id: string, script: Script): Run<CreationResult> {
    var enable := EnableControl(GuardrailControl, id);
    match script.enableError
    case Some(m) => Run(Ok(FailedWith(request, Some(id), m)), [enable])
    case None =>
      match TagsOf(request)
      case Raised(e) => Run(Raised(e), [enable])
      case Ok(tags) =>
        var tag := TagResource(id, tags);
        match script.tagError
        case Some(m) => Run(Ok(FailedWith(request, Some(id), m)), [enable, tag])
        case None => Run(Ok(CreationResult(request, Success, Some(id), None)), [enable, tag])
  }

  /** What follows polling: a raised poll, a succeeded job, or another
      settled state. */
  function Conclude(request: Json, final: Reply<JobStatus>, script: Script): Run<CreationResult> {
    match final
    case ClientError(m) => Run(Ok(FailedWith(request, None, m)), [])
    case Replied(status) =>
      if status.state == Succeeded then
        match status.accountId
        case None => Run(Raised(KeyError("AccountId")), [])
        case Some(id) => Provision(request, id, script)
      else Run(Ok(FailedWith(request, None, status.failureReason.GetOr(UnknownError))), [])
  }

  /** `create_account(request)`: what it returns or raises, and the calls it
      makes. */
  function Attempt(request: Json, script: Script): Run<CreationResult>
    requires Scripted(script)
  {
    match Parameters(request)
    case Raised(e) => Run(Raised(e), [])
    case Ok((email, name)) =>
      var create := CreateAccount(email, name, RoleName, BillingAccess);
      match script.create
      case ClientError(m) => Run(Ok(FailedWith(request, None, m)), [create])
      case Replied(initial) =>
        var polled := Poll(initial, script.polls);
        var rest := Conclude(request, polled.final, script);
        Run(rest.outcome, [create] + polled.calls + rest.calls)
  }

  /** The two kinds of call the properties below single out: the control
      and tag calls that set up a new account, and notifications. */
  datatype CallKind = Provisioning | Notification

  predicate IsKind(c: Call, kind: CallKind) {
    match kind
    case Provisioning => c.EnableControl? || c.TagResource?
    case Notification => c.Publish?
  }

  /** The calls of the given kind, in order. */
  function Filter(calls: seq<Call>, kind: CallKind): seq<Call> {
    if calls == [] then []
    else Filter(calls[..|calls| - 1], kind) + (if IsKind(calls[|calls| - 1], kind) then [calls[|calls| - 1]] else [])
  }

  lemma {:induction false} FilterAppend(a: seq<Call>, b: seq<Call>, kind: CallKind)
    ensures Filter(a + b, kind) == Filter(a, kind) + Filter(b, kind)
    decreases |b|
  {
    if b == [] {
      assert a + b == a;
    } else {
      var b' := b[..|b| - 1];
      assert (a + b)[..|a + b| - 1] == a + b';
      FilterAppend(a, b', kind);
    }
  }

  lemma FilterOne(c: Call, kind: CallKind)
    ensures Filter([c], kind) == if IsKind(c, kind) then [c] else []
  {
    assert [c][..0] == [];
  }

  /** The calls of a pair, by kind: the first one's, then the second one's. */
  lemma FilterPair(c: Call, d: Call, kind: CallKind)
    ensures Filter([c, d], kind) == Filter([c], kind) + Filter([d], kind)
  {
    assert [c, d][..1] == [c];
    FilterOne(d, kind);
  }

  /** Every call made for a succeeded job is a control or tag call. */
  lemma ProvisionCalls(request: Json, id: string, script: Script)
    ensures var calls := Provision(request, id, script).calls;
            Filter(calls, Provisioning) == calls && Filter(calls, Notification) == []
  {
    var enable := EnableControl(GuardrailControl, id);
    FilterOne(enable, Provisioning);
    FilterOne(enable, Notification);
    if script.enableError.None? && TagsOf(request).Ok? {
      var tag := TagResource(id, TagsOf(request).value);
      FilterOne(tag, Provisioning);
      FilterOne(tag, Notification);
      FilterPair(enable, tag, Provisioning);
      FilterPair(enable, tag, Notification);
    }
  }

  /** A succeeded job is a success only when neither the control nor the
      tag call failed and the tags could be read. */
  lemma ProvisionSuccess(request: Json, id: string, script: Script)
    ensures var p := Provision(request, id, script);
            p.outcome.Ok? && p.outcome.value.status == Success ==>
              && p.outcome.value.accountId == Some(id)
              && TagsOf(request).Ok?
              && p.calls == [EnableControl(GuardrailControl, id), TagResource(id, TagsOf(request).value)]
  {
  }

  /** Nothing after polling is a notification. */
  lemma ConcludeNoNotification(request: Json, final: Reply<JobStatus>, script: Script)
    ensures Filter(Conclude(request, final, script).calls, Notification) == []
  {
    if final.Replied? && final.value.state == Succeeded && final.value.accountId.Some? {
      ProvisionCalls(request, final.value.accountId.value, script);
    }
  }

  /** After polling, a success comes from the settled job's account id,
      with exactly one control call and one tag call on it. */
  lemma ConcludeSuccess(request: Json, final: Reply<JobStatus>, script: Script)
    ensures var c := Conclude(request, final, script);
            c.outcome.Ok? && c.outcome.value.status == Success ==>
              && final.Replied? && final.value.accountId.Some?
              && c.outcome.value.accountId == final.value.accountId
              && TagsOf(request).Ok?
              && Filter(c.calls, Provisioning) ==
                   [EnableControl(GuardrailControl, final.value.accountId.value),
                    TagResource(final.value.accountId.value, TagsOf(request).value)]
  {
    if final.Replied? && final.value.state == Succeeded && final.value.accountId.Some? {
      ProvisionCalls(request, final.value.accountId.value, script);
      ProvisionSuccess(request, final.value.accountId.value, script);
    } else {
      var c := Conclude(request, final, script);
      assert c.outcome.Ok? ==> c.outcome.value.status == Failed;
    }
  }

  /** No poll is a control or tag call, nor a notification. */
  lemma {:induction false} PollsOnly(status: JobStatus, replies: seq<Reply<JobStatus>>)
    requires Settles(status, replies)
    ensures Filter(Poll(status, replies).calls, Provisioning) == []
    ensures Filter(Poll(status, replies).calls, Notification) == []
    decreases |replies|
  {
    if status.state == InProgress {
      var ask := DescribeCreateAccountStatus(status.id);
      if replies[0].Replied? {
        PollsOnly(replies[0].value, replies[1..]);
        FilterAppend([ask], Poll(replies[0].value, replies[1..]).calls, Provisioning);
        FilterAppend([ask], Poll(replies[0].value, replies[1..]).calls, Notification);
      }
      assert Filter([ask], Provisioning) == [] && Filter([ask], Notification) == [];
    }
  }

  /** The calls of one attempt, cut at the polls: the creation call, the
      polls, and what follows them. */
  lemma AttemptCalls(request: Json, script: Script)
    requires Scripted(script)
    requires Parameters(request).Ok? && script.create.Replied?
    ensures var polled := Poll(script.create.value, script.polls);
            var rest := Conclude(request, polled.final, script);
            && Attempt(request, script).outcome == rest.outcome
            && Filter(Attempt(request, script).calls, Provisioning) == Filter(rest.calls, Provisioning)
            && Filter(Attempt(request, script).calls, Notification) == Filter(rest.calls, Notification)
  {
    var (email, name) := Parameters(request).value;
    var create := CreateAccount(email, name, RoleName, BillingAccess);
    var polled := Poll(script.create.value, script.polls);
    var rest := Conclude(request, polled.final, script);
    PollsOnly(script.create.value, script.polls);
    FilterAppend([create] + polled.calls, rest.calls, Provisioning);
    FilterAppend([create], polled.calls, Provisioning);
    FilterAppend([create] + polled.calls, rest.calls, Notification);
    FilterAppend([create], polled.calls, Notification);
    assert Filter([create], Provisioning) == [] && Filter([create], Notification) == [];
  }

  /** Every result `create_account` returns is about its own request and is
      settled: `success` with no error, or `failed` with one. */
  lemma AttemptSettled(request: Json, script: Script)
    requires Scripted(script)
    ensures var o := Attempt(request, script).outcome;
            o.Ok? ==> && o.value.request == request
                      && o.value.status != Pending
                      && (o.value.status == Success <==> o.value.error.None?)
                      && (o.value.status == Success ==> o.value.accountId.Some?)
  {
  }

  /** A created account gets exactly one control call and one tag call, on
      the new account id, with the request's tags. */
  lemma SuccessProvisionsOnce(request: Json, script: Script)
    requires Scripted(script)
    requires Attempt(request, script).outcome.Ok?
    requires Attempt(request, script).outcome.value.status == Success
    ensures var id := Attempt(request, script).outcome.value.accountId.value;
            && TagsOf(request).Ok?
            && Filter(Attempt(request, script).calls, Provisioning) ==
                 [EnableControl(GuardrailControl, id), TagResource(id, TagsOf(request).value)]
  {
    assert Parameters(request).Ok? && script.create.Replied?;
    AttemptCalls(request, script);
    ConcludeSuccess(request, Poll(script.create.value, script.polls).final, script);
  }

  /** A job that settles in SUCCEEDED with account `id`, whose control and
      tag calls raise no ClientError and whose tags can be read, gives
      `success` with that id, after exactly one control call and one tag
      call on the new account. */
  lemma SucceededProvisions(request: Json, script: Script, id: string)
    requires Scripted(script)
    requires Parameters(request).Ok? && script.create.Replied?
    requires Poll(script.create.value, script.polls).final.Replied?
    requires Poll(script.create.value, script.polls).final.value.state == Succeeded
    requires Poll(script.create.value, script.polls).final.value.accountId == Some(id)
    requires script.enableError.None? && TagsOf(request).Ok? && script.tagError.None?
    ensures Attempt(request, script).outcome == Ok(CreationResult(request, Success, Some(id), None))
    ensures Filter(Attempt(request, script).calls, Provisioning) ==
              [EnableControl(GuardrailControl, id), TagResource(id, TagsOf(request).value)]
  {
    AttemptCalls(request, script);
    ProvisionCalls(request, id, script);
  }

  /** A job that settles in a state other than SUCCEEDED gives `failed`,
      the FailureReason (or 'Unknown error'), no account id, and neither a
      control nor a tag call. */
  lemma OtherStateFails(request: Json, script: Script)
    requires Scripted(script)
    requires Parameters(request).Ok? && script.create.Replied?
    requires Poll(script.create.value, script.polls).final.Replied?
    requires Poll(script.create.value, script.polls).final.value.state != Succeeded
    ensures var status := Poll(script.create.value, script.polls).final.value;
            && Attempt(request, script).outcome ==
                 Ok(CreationResult(request, Failed, None, Some(status.failureReason.GetOr(UnknownError))))
            && Filter(Attempt(request, script).calls, Provisioning) == []
  {
    AttemptCalls(request, script);
  }

  /** A ClientError at any step gives `failed` with its text; raised by the
      control or the tag call, after the job succeeded, it keeps the
      account id. */
  lemma ClientErrorFails(request: Json, script: Script)
    requires Scripted(script)
    requires Parameters(request).Ok?
    ensures script.create.ClientError? ==>
              Attempt(request, script).outcome == Ok(FailedWith(request, None, script.create.message))
    ensures script.create.Replied? && Poll(script.create.value, script.polls).final.ClientError? ==>
              Attempt(request, script).outcome ==
                Ok(FailedWith(request, None, Poll(script.create.value, script.polls).final.message))
    ensures script.create.Replied? && Poll(script.create.value, script.polls).final.Replied? ==>
              var status := Poll(script.create.value, script.polls).final.value;
              status.state == Succeeded && status.accountId.Some? ==>
                && (script.enableError.Some? ==>
                      Attempt(request, script).outcome ==
                        Ok(FailedWith(request, status.accountId, script.enableError.value)))
                && (script.enableError.None? && TagsOf(request).Ok? && script.tagError.Some? ==>
                      Attempt(request, script).outcome ==
                        Ok(FailedWith(request, status.accountId, script.tagError.value)))
  {
    if script.create.Replied? {
      AttemptCalls(request, script);
    }
  }

  /** The tag list has one entry per tag of the request, in the dict's
      order; it is computed only from a dict of tags. */
  lemma TagsOnePerEntry(request: Json)
    ensures var tags := Subscript(request, "account_request");
            tags.Ok? && Subscript(tags.value, "account_tags").Ok? ==>
              var accountTags := Subscript(tags.value, "account_tags").value;
              && (TagsOf(request).Ok? <==> accountTags.JObject?)
              && (accountTags.JObject? ==>
                    && |TagsOf(request).value| == |accountTags.entries|
                    && forall i :: 0 <= i < |accountTags.entries| ==>
                         TagsOf(request).value[i] == Tag(accountTags.entries[i].0, accountTags.entries[i].1))
  {
  }

  // ---------------------------------------------------------------------
  // One batch: `process_batch`.

  /** One script per request, each of whose polls settle. */
  predicate AllScripted(requests: seq<Json>, scripts: seq<Script>) {
    |scripts| == |requests| && forall i :: 0 <= i < |scripts| ==> Scripted(scripts[i])
  }

  /** The calls of the runs, one run after the other. */
  function CallsOf<T>(runs: seq<Run<T>>): seq<Call> {
    if runs == [] then [] else CallsOf(runs[..|runs| - 1]) + runs[|runs| - 1].calls
  }

  /** `list(results)` over the attempts: the results in order, or the first
      exception in request order. */
  function Gather(outcomes: seq<Outcome<CreationResult>>): Outcome<seq<CreationResult>> {
    if outcomes == [] then Ok([])
    else
      var earlier :- Gather(outcomes[..|outcomes| - 1]);
      match outcomes[|outcomes| - 1]
      case Raised(e) => Raised(e)
      case Ok(r) => Ok(earlier + [r])
  }

  /** The number of results with the given status. */
  function CountStatus(results: seq<CreationResult>, status: CreationStatus): nat {
    if results == [] then 0
    else CountStatus(results[..|results| - 1], status) +
         (if results[|results| - 1].status == status then 1 else 0)
  }

  /** The summary of a batch: how many succeeded, and the rest. */
  function SummaryOf(results: seq<CreationResult>): Summary
    requires CountStatus(results, Success) <= |results|
  {
    Summary(|results|, CountStatus(results, Success), |results| - CountStatus(results, Success))
  }

  lemma {:induction false} CountStatusBound(results: seq<CreationResult>, status: CreationStatus)
    ensures CountStatus(results, status) <= |results|
  {
    if results != [] {
      CountStatusBound(results[..|results| - 1], status);
    }
  }

  /** `create_account` over the requests in turn, whatever the others do. */
  function Attempts(requests: seq<Json>, scripts: seq<Script>): (runs: seq<Run<CreationResult>>)
    requires AllScripted(requests, scripts)
    ensures |runs| == |requests|
    decreases |requests|
  {
    if requests == [] then []
    else
      var n := |requests| - 1;
      Attempts(requests[..n], scripts[..n]) + [Attempt(requests[n], scripts[n])]
  }

  function Outcomes<T>(runs: seq<Run<T>>): seq<Outcome<T>> {
    seq(|runs|, i requires 0 <= i < |runs| => runs[i].outcome)
  }

  /** `process_batch` over the attempts of its requests: the first exception
      escapes; otherwise one notification with the results and their
      summary, whose ClientError, if SNS raises one, escapes too. */
  function BatchRun(topicArn: string, sns: PublishReply, runs: seq<Run<CreationResult>>): Run<seq<CreationResult>> {
    match Gather(Outcomes(runs))
    case Raised(e) => Run(Raised(e), CallsOf(runs))
    case Ok(results) =>
      CountStatusBound(results, Success);
      var calls := CallsOf(runs) + [Publish(topicArn, results, SummaryOf(results))];
      match sns(results)
      case None => Run(Ok(results), calls)
      case Some(m) => Run(Raised(UncaughtClientError(m)), calls)
  }

  // ---------------------------------------------------------------------
  // All requests: `create_accounts`.

  /** `requests[i:i + size]` for i = 0, size, 2 * size, ... */
  function Batches<T>(requests: seq<T>, size: nat): seq<seq<T>>
    requires size > 0
    decreases |requests|
  {
    if requests == [] then []
    else
      var m := Min(size, |requests|);
      [requests[..m]] + Batches(requests[m..], size)
  }

  function Concat<T>(parts: seq<seq<T>>): seq<T> {
    if parts == [] then [] else parts[0] + Concat(parts[1..])
  }

  /** Results and calls so far, followed by a run of the rest. */
  function Continue(results: seq<CreationResult>, calls: seq<Call>,
                    rest: Run<seq<CreationResult>>): Run<seq<CreationResult>>
  {
    Run(match rest.outcome
        case Raised(e) => Raised(e)
        case Ok(more) => Ok(results + more),
        calls + rest.calls)
  }

  /** The batches processed in order, each over the attempts of its own
      requests: the first exception stops the loop, and the attempts of the
      later batches are never made. */
  function RunBatches(topicArn: string, sns: PublishReply, runs: seq<Run<CreationResult>>, size: nat)
    : Run<seq<CreationResult>>
    requires size > 0
    decreases |runs|
  {
    if runs == [] then Run(Ok([]), [])
    else
      var m := Min(size, |runs|);
      var first := BatchRun(topicArn, sns, runs[..m]);
      match first.outcome
      case Raised(e) => Run(Raised(e), first.calls)
      case Ok(results) =>
        Continue(results, first.calls, RunBatches(topicArn, sns, runs[m..], size))
  }

  /** `create_accounts(requests)`: a zero batch size makes `range` raise
      ValueError; a negative one gives no batch at all. */
  function CreationRun(topicArn: string, sns: PublishReply, requests: seq<Json>, scripts: seq<Script>, size: int)
    : Run<Totals>
    requires AllScripted(requests, scripts)
  {
    if size == 0 then Run(Raised(ValueError), [])
    else if size < 0 then Run(Ok(Totals(|requests|, 0, 0, [])), [])
    else
      var run := RunBatches(topicArn, sns, Attempts(requests, scripts), size);
      match run.outcome
      case Raised(e) => Run(Raised(e), run.calls)
      case Ok(results) =>
        Run(Ok(Totals(|requests|, CountStatus(results, Success), CountStatus(results, Failed), results)),
            run.calls)
  }

  // ---------------------------------------------------------------------
  // What the batching promises.

  /** The batches put back together give the requests. */
  lemma {:induction false} BatchesConcat<T>(requests: seq<T>, size: nat)
    requires size > 0
    ensures Concat(Batches(requests, size)) == requests
    decreases |requests|
  {
    if requests != [] {
      var m := Min(size, |requests|);
      var rest := Batches(requests[m..], size);
      BatchesConcat(requests[m..], size);
      assert ([requests[..m]] + rest)[1..] == rest;
      assert requests[..m] + requests[m..] == requests;
    }
  }

  /** Every batch holds between 1 and `size` requests, and all but the last
      exactly `size`. */
  predicate WellSized<T>(batches: seq<seq<T>>, size: nat) {
    forall j :: 0 <= j < |batches| ==>
      && 1 <= |batches[j]| <= size
      && (j < |batches| - 1 ==> |batches[j]| == size)
  }

  /** Slicing `requests` into batches of `size` leaves every batch well
      sized. */
  lemma {:induction false} BatchesSizes<T>(requests: seq<T>, size: nat)
    requires size > 0
    ensures WellSized(Batches(requests, size), size)
    decreases |requests|
  {
    if requests != [] {
      var m := Min(size, |requests|);
      BatchesSizes(requests[m..], size);
      var rest := Batches(requests[m..], size);
      var batches := [requests[..m]] + rest;
      assert Batches(requests, size) == batches;
      assert rest != [] ==> m == size by {
        if m < size {
          assert requests[m..] == [];
        }
      }
      forall j | 0 <= j < |batches|
        ensures 1 <= |batches[j]| <= size && (j < |batches| - 1 ==> |batches[j]| == size)
      {
        if j == 0 {
          assert batches[0] == requests[..m];
        } else {
          assert batches[j] == rest[j - 1];
        }
      }
    }
  }

  /** Multiplication by the batch size, one batch more or less. */
  lemma MulStep(k: int, size: int)
    ensures (k - 1) * size + size == k * size
    ensures k * size + size == (k + 1) * size
  {
  }

  /** There are ceil(n / size) batches: the fewest whose `size` slots hold
      all n requests. */
  lemma {:induction false} BatchesCount<T>(requests: seq<T>, size: nat)
    requires size > 0
    ensures var k := |Batches(requests, size)|;
            (k - 1) * size < |requests| <= k * size
    decreases |requests|
  {
    if requests == [] {
      assert |Batches(requests, size)| == 0;
    } else {
      var m := Min(size, |requests|);
      var rest := Batches(requests[m..], size);
      assert |Batches(requests, size)| == |rest| + 1;
      if m < size {
        assert requests[m..] == [];
        assert |rest| == 0;
      } else {
        BatchesCount(requests[m..], size);
        MulStep(|rest|, size);
      }
    }
  }

  /** Twenty-five requests in batches of ten: 10, 10 and 5. */
  lemma TwentyFiveInTens<T>(requests: seq<T>)
    requires |requests| == 25
    ensures var batches := Batches(requests, 10);
            |batches| == 3 && |batches[0]| == 10 && |batches[1]| == 10 && |batches[2]| == 5
  {
    var b2 := Batches(requests[20..], 10);
    assert requests[20..][..5] == requests[20..] && requests[20..][5..] == [];
    assert Batches(requests[20..][5..], 10) == [];
    assert b2 == [requests[20..]];
    var b1 := Batches(requests[10..], 10);
    assert requests[10..][10..] == requests[20..] && requests[10..][..10] == requests[10..20];
    assert b1 == [requests[10..20]] + b2;
    assert Batches(requests, 10) == [requests[..10]] + b1;
  }

  /** A batch size of zero raises ValueError and a negative one creates
      nothing; neither calls a service. */
  lemma BatchSizeEdges(topicArn: string, sns: PublishReply, requests: seq<Json>, scripts: seq<Script>)
    requires AllScripted(requests, scripts)
    ensures CreationRun(topicArn, sns, requests, scripts, 0) == Run(Raised(ValueError), [])
    ensures forall size :: size < 0 ==>
              CreationRun(topicArn, sns, requests, scripts, size) == Run(Ok(Totals(|requests|, 0, 0, [])), [])
  {
  }

  /** Results counted by status: with no result pending, the successes and
      the failures make up all of them. */
  lemma {:induction false} CountStatusPartition(results: seq<CreationResult>)
    ensures CountStatus(results, Success) + CountStatus(results, Failed) + CountStatus(results, Pending)
            == |results|
    ensures CountStatus(results, Pending) == 0 <==> forall i :: 0 <= i < |results| ==> results[i].status != Pending
  {
    if results != [] {
      var init := results[..|results| - 1];
      CountStatusPartition(init);
      assert forall i :: 0 <= i < |init| ==> init[i] == results[i];
    }
  }

  lemma {:induction false} CountStatusAppend(a: seq<CreationResult>, b: seq<CreationResult>, status: CreationStatus)
    ensures CountStatus(a + b, status) == CountStatus(a, status) + CountStatus(b, status)
    decreases |b|
  {
    if b == [] {
      assert a + b == a;
    } else {
      var b' := b[..|b| - 1];
      assert (a + b)[..|a + b| - 1] == a + b';
      CountStatusAppend(a, b', status);
    }
  }

  /** The batch summary's `failed` (total minus successes) counts the failed
      results, since none is pending. */
  lemma SummaryCountsFailures(results: seq<CreationResult>)
    requires forall i :: 0 <= i < |results| ==> results[i].status != Pending
    ensures CountStatus(results, Success) <= |results|
    ensures SummaryOf(results).failed == CountStatus(results, Failed)
    ensures SummaryOf(results).success + SummaryOf(results).failed == SummaryOf(results).total
  {
    CountStatusPartition(results);
  }

  /** `list()` over the attempts yields every result in order when none
      raised, and otherwise the first exception in request order. */
  lemma {:induction false} GatherFirstRaised(outcomes: seq<Outcome<CreationResult>>)
    ensures var g := Gather(outcomes);
            && (g.Ok? <==> forall i :: 0 <= i < |outcomes| ==> outcomes[i].Ok?)
            && (g.Ok? ==> |g.value| == |outcomes| &&
                          forall i :: 0 <= i < |outcomes| ==> outcomes[i] == Ok(g.value[i]))
            && (g.Raised? ==> exists i :: 0 <= i < |outcomes| && outcomes[i] == Raised(g.exc) &&
                                          forall j :: 0 <= j < i ==> outcomes[j].Ok?)
  {
    if outcomes != [] {
      var init := outcomes[..|outcomes| - 1];
      GatherFirstRaised(init);
      assert forall i :: 0 <= i < |init| ==> init[i] == outcomes[i];
    }
  }

  /** A prefix's exception is the whole sequence's. */
  lemma {:induction false} GatherRaisedStays(outcomes: seq<Outcome<CreationResult>>, k: nat)
    requires k <= |outcomes| && Gather(outcomes[..k]).Raised?
    ensures Gather(outcomes) == Gather(outcomes[..k])
    decreases |outcomes| - k
  {
    if k < |outcomes| {
      assert outcomes[..k + 1][..k] == outcomes[..k];
      GatherRaisedStays(outcomes, k + 1);
    } else {
      assert outcomes[..k] == outcomes;
    }
  }

  /** One result per request, in order, none of them pending. */
  predicate SettledFor(results: seq<CreationResult>, requests: seq<Json>) {
    && |results| == |requests|
    && forall i :: 0 <= i < |requests| ==> results[i].request == requests[i] && results[i].status != Pending
  }

  lemma SettledForAppend(a: seq<CreationResult>, b: seq<CreationResult>, ra: seq<Json>, rb: seq<Json>)
    requires SettledFor(a, ra) && SettledFor(b, rb)
    ensures SettledFor(a + b, ra + rb)
  {
    forall i | 0 <= i < |ra + rb|
      ensures (a + b)[i].request == (ra + rb)[i] && (a + b)[i].status != Pending
    {
      if i >= |ra| {
        assert (a + b)[i] == b[i - |ra|] && (ra + rb)[i] == rb[i - |ra|];
      }
    }
  }

  /** No attempt publishes. */
  lemma AttemptNoPublish(request: Json, script: Script)
    requires Scripted(script)
    ensures Filter(Attempt(request, script).calls, Notification) == []
  {
    if Parameters(request).Ok? {
      var (email, name) := Parameters(request).value;
      var create := CreateAccount(email, name, RoleName, BillingAccess);
      if script.create.Replied? {
        AttemptCalls(request, script);
        ConcludeNoNotification(request, Poll(script.create.value, script.polls).final, script);
      } else {
        FilterOne(create, Notification);
        assert Attempt(request, script).calls == [create];
      }
    } else {
      assert Attempt(request, script).calls == [];
    }
  }

  lemma {:induction false} CallsOfNoPublish(runs: seq<Run<CreationResult>>)
    requires forall i :: 0 <= i < |runs| ==> Filter(runs[i].calls, Notification) == []
    ensures Filter(CallsOf(runs), Notification) == []
  {
    if runs != [] {
      var init := runs[..|runs| - 1];
      CallsOfNoPublish(init);
      FilterAppend(CallsOf(init), runs[|runs| - 1].calls, Notification);
    }
  }

  /** The attempt of request i is the i-th run. */
  lemma {:induction false} AttemptsAt(requests: seq<Json>, scripts: seq<Script>, i: nat)
    requires AllScripted(requests, scripts) && i < |requests|
    ensures Attempts(requests, scripts)[i] == Attempt(requests[i], scripts[i])
    decreases |requests|
  {
    var n := |requests| - 1;
    if i < n {
      AttemptsAt(requests[..n], scripts[..n], i);
    }
  }

  /** Run `k` is the attempt of request `k`. */
  ghost predicate AttemptedAt(runs: seq<Run<CreationResult>>, requests: seq<Json>, scripts: seq<Script>, k: int)
    requires AllScripted(requests, scripts) && |runs| == |requests|
  {
    0 <= k < |runs| ==> runs[k] == Attempt(requests[k], scripts[k])
  }

  /** `runs` are the attempts of `requests`, one each, in order. */
  ghost predicate AttemptsOf(runs: seq<Run<CreationResult>>, requests: seq<Json>, scripts: seq<Script>) {
    && AllScripted(requests, scripts)
    && |runs| == |requests|
    && forall k {:trigger AttemptedAt(runs, requests, scripts, k)} :: AttemptedAt(runs, requests, scripts, k)
  }

  lemma AttemptsAreAttempts(requests: seq<Json>, scripts: seq<Script>)
    requires AllScripted(requests, scripts)
    ensures AttemptsOf(Attempts(requests, scripts), requests, scripts)
  {
    var runs := Attempts(requests, scripts);
    forall k
      ensures AttemptedAt(runs, requests, scripts, k)
    {
      if 0 <= k < |runs| {
        AttemptsAt(requests, scripts, k);
      }
    }
  }

  /** One more run: its outcome and its calls come last. */
  lemma RunsSnoc<T>(runs: seq<Run<T>>, run: Run<T>)
    ensures Outcomes(runs + [run]) == Outcomes(runs) + [run.outcome]
    ensures CallsOf(runs + [run]) == CallsOf(runs) + run.calls
  {
    assert (runs + [run])[..|runs|] == runs;
  }

  /** The outcomes and the calls of one more run of a window, with the
      calls logged after those made before. */
  lemma RunsStep<T>(runs: seq<Run<T>>, lo: nat, i: nat, start: seq<Call>, before: seq<Call>, after: seq<Call>)
    requires lo <= i < |runs|
    requires before == start + CallsOf(runs[lo..i]) && after == before + runs[i].calls
    ensures Outcomes(runs[lo..i + 1]) == Outcomes(runs[lo..i]) + [runs[i].outcome]
    ensures after == start + CallsOf(runs[lo..i + 1])
  {
    assert runs[lo..i + 1] == runs[lo..i] + [runs[i]];
    RunsSnoc(runs[lo..i], runs[i]);
  }

  /** Each run answers its own request, with a settled result unless it
      raised, and publishes nothing. */
  predicate Answers(runs: seq<Run<CreationResult>>, requests: seq<Json>) {
    && |runs| == |requests|
    && forall i :: 0 <= i < |runs| ==>
         && Filter(runs[i].calls, Notification) == []
         && (runs[i].outcome.Ok? ==>
               runs[i].outcome.value.request == requests[i] && runs[i].outcome.value.status != Pending)
  }

  lemma AttemptsAnswer(requests: seq<Json>, scripts: seq<Script>)
    requires AllScripted(requests, scripts)
    ensures Answers(Attempts(requests, scripts), requests)
  {
    var runs := Attempts(requests, scripts);
    forall i | 0 <= i < |runs|
      ensures Filter(runs[i].calls, Notification) == []
      ensures runs[i].outcome.Ok? ==>
                runs[i].outcome.value.request == requests[i] && runs[i].outcome.value.status != Pending
    {
      AttemptsAt(requests, scripts, i);
      AttemptNoPublish(requests[i], scripts[i]);
      AttemptSettled(requests[i], scripts[i]);
    }
  }

  lemma AnswersSplit(runs: seq<Run<CreationResult>>, requests: seq<Json>, m: nat)
    requires Answers(runs, requests) && m <= |runs|
    ensures Answers(runs[..m], requests[..m]) && Answers(runs[m..], requests[m..])
  {
    forall i | 0 <= i < |runs| - m
      ensures runs[m..][i] == runs[m + i] && requests[m..][i] == requests[m + i]
    {
    }
  }

  /** When every attempt of a batch returns, the batch publishes exactly
      once, with the results in request order and their summary, and it
      returns those results unless SNS raised; a batch one of whose attempts
      raises publishes nothing and raises that attempt's exception. */
  lemma BatchRunSpec(topicArn: string, sns: PublishReply, runs: seq<Run<CreationResult>>, requests: seq<Json>)
    requires Answers(runs, requests)
    ensures var b := BatchRun(topicArn, sns, runs);
            var g := Gather(Outcomes(runs));
            && (g.Ok? ==>
                  && SettledFor(g.value, requests)
                  && CountStatus(g.value, Success) <= |g.value|
                  && Filter(b.calls, Notification) == [Publish(topicArn, g.value, SummaryOf(g.value))]
                  && (b.outcome.Ok? <==> sns(g.value).None?))
            && (b.outcome.Ok? ==> b.outcome == g)
            && (g.Raised? ==> b.outcome == g && Filter(b.calls, Notification) == [])
  {
    CallsOfNoPublish(runs);
    GatherFirstRaised(Outcomes(runs));
    var g := Gather(Outcomes(runs));
    if g.Ok? {
      CountStatusBound(g.value, Success);
      forall i | 0 <= i < |requests|
        ensures g.value[i].request == requests[i] && g.value[i].status != Pending
      {
        assert Outcomes(runs)[i] == Ok(g.value[i]);
      }
      var publish := Publish(topicArn, g.value, SummaryOf(g.value));
      FilterAppend(CallsOf(runs), [publish], Notification);
    }
  }

  /** Run `i` raised `exc`, and every run before it returned. */
  ghost predicate FirstRaise<T>(runs: seq<Run<T>>, i: int, exc: PyException) {
    0 <= i < |runs| && runs[i].outcome == Raised(exc) && forall j :: 0 <= j < i ==> runs[j].outcome.Ok?
  }

  /** The last call published a batch's results, and SNS answered it with
      the ClientError `exc` carries. */
  predicate PublishRaised(calls: seq<Call>, sns: PublishReply, exc: PyException) {
    && calls != []
    && calls[|calls| - 1].Publish?
    && exc.UncaughtClientError?
    && sns(calls[|calls| - 1].batchResults) == Some(exc.message)
  }

  /** A batch returns the results of its runs, one each, in order; when it
      raises, the exception is that of its first run to raise, or, when none
      did, the one SNS raised for the notification it sent last. */
  lemma BatchRunOutcome(topicArn: string, sns: PublishReply, runs: seq<Run<CreationResult>>)
    ensures var b := BatchRun(topicArn, sns, runs);
            && (b.outcome.Ok? ==>
                  && |b.outcome.value| == |runs|
                  && forall i :: 0 <= i < |runs| ==> runs[i].outcome == Ok(b.outcome.value[i]))
            && (b.outcome.Raised? ==>
                  (exists i :: FirstRaise(runs, i, b.outcome.exc)) || PublishRaised(b.calls, sns, b.outcome.exc))
  {
    var outcomes := Outcomes(runs);
    GatherFirstRaised(outcomes);
    var g := Gather(outcomes);
    if g.Raised? {
      var i :| 0 <= i < |outcomes| && outcomes[i] == Raised(g.exc) &&
               forall j :: 0 <= j < i ==> outcomes[j].Ok?;
      assert forall j :: 0 <= j < i ==> outcomes[j] == runs[j].outcome;
      assert FirstRaise(runs, i, g.exc);
    } else {
      forall i | 0 <= i < |runs|
        ensures runs[i].outcome == Ok(g.value[i])
      {
        assert outcomes[i] == Ok(g.value[i]);
      }
    }
  }

  /** Every batch returns: its attempts and its notification raise nothing. */
  ghost predicate AllReturn(topicArn: string, sns: PublishReply, batches: seq<seq<Run<CreationResult>>>) {
    forall k :: 0 <= k < |batches| ==> BatchRun(topicArn, sns, batches[k]).outcome.Ok?
  }

  /** The batch loop returns exactly when every batch does; when it raises,
      the exception is that of the first batch to raise. */
  lemma {:induction false} RunBatchesFirstRaised(topicArn: string, sns: PublishReply,
                                                 runs: seq<Run<CreationResult>>, size: nat)
    requires size > 0
    ensures var r := RunBatches(topicArn, sns, runs, size);
            var batches := Batches(runs, size);
            && (r.outcome.Ok? <==> AllReturn(topicArn, sns, batches))
            && (r.outcome.Raised? ==>
                  exists k :: 0 <= k < |batches| && BatchRun(topicArn, sns, batches[k]).outcome == r.outcome &&
                              forall j :: 0 <= j < k ==> BatchRun(topicArn, sns, batches[j]).outcome.Ok?)
    decreases |runs|
  {
    if runs != [] {
      var m := Min(size, |runs|);
      var batches := Batches(runs, size);
      var later := Batches(runs[m..], size);
      assert batches == [runs[..m]] + later;
      assert forall k :: 0 < k < |batches| ==> batches[k] == later[k - 1];
      var first := BatchRun(topicArn, sns, runs[..m]);
      var r := RunBatches(topicArn, sns, runs, size);
      if first.outcome.Raised? {
        assert BatchRun(topicArn, sns, batches[0]).outcome == r.outcome;
      } else {
        RunBatchesFirstRaised(topicArn, sns, runs[m..], size);
        var rest := RunBatches(topicArn, sns, runs[m..], size);
        assert r.outcome.Ok? <==> rest.outcome.Ok?;
        assert BatchRun(topicArn, sns, batches[0]).outcome.Ok?;
        if rest.outcome.Raised? {
          var k :| 0 <= k < |later| && BatchRun(topicArn, sns, later[k]).outcome == rest.outcome &&
                   forall j :: 0 <= j < k ==> BatchRun(topicArn, sns, later[j]).outcome.Ok?;
          assert BatchRun(topicArn, sns, batches[k + 1]).outcome == r.outcome;
          assert forall j :: 0 < j < k + 1 ==> BatchRun(topicArn, sns, batches[j]).outcome.Ok?;
          assert !AllReturn(topicArn, sns, batches);
        } else {
          assert AllReturn(topicArn, sns, later);
          assert forall k :: 0 < k < |batches| ==> BatchRun(topicArn, sns, batches[k]).outcome.Ok?;
        }
      }
    }
  }

  /** A batch loop that returns gives the results of all the runs, one
      each, in order. */
  lemma {:induction false} RunBatchesResults(topicArn: string, sns: PublishReply,
                                             runs: seq<Run<CreationResult>>, size: nat)
    requires size > 0
    ensures var r := RunBatches(topicArn, sns, runs, size);
            r.outcome.Ok? ==>
              && |r.outcome.value| == |runs|
              && forall i :: 0 <= i < |runs| ==> runs[i].outcome == Ok(r.outcome.value[i])
    decreases |runs|
  {
    var r := RunBatches(topicArn, sns, runs, size);
    if runs != [] && r.outcome.Ok? {
      var m := Min(size, |runs|);
      var first := BatchRun(topicArn, sns, runs[..m]);
      var rest := RunBatches(topicArn, sns, runs[m..], size);
      BatchRunOutcome(topicArn, sns, runs[..m]);
      RunBatchesResults(topicArn, sns, runs[m..], size);
      var done, more := first.outcome.value, rest.outcome.value;
      assert r.outcome.value == done + more;
      forall i | 0 <= i < |runs|
        ensures runs[i].outcome == Ok(r.outcome.value[i])
      {
        if i < m {
          assert runs[i] == runs[..m][i];
        } else {
          assert runs[i] == runs[m..][i - m] && r.outcome.value[i] == more[i - m];
        }
      }
    }
  }

  /** A batch loop that raises carries the exception of the first run to
      raise, in request order, or, when no run did, the one SNS raised for
      the notification sent last. */
  lemma {:induction false} RunBatchesRaised(topicArn: string, sns: PublishReply,
                                            runs: seq<Run<CreationResult>>, size: nat)
    requires size > 0
    ensures var r := RunBatches(topicArn, sns, runs, size);
            r.outcome.Raised? ==>
              (exists i :: FirstRaise(runs, i, r.outcome.exc)) || PublishRaised(r.calls, sns, r.outcome.exc)
    decreases |runs|
  {
    var r := RunBatches(topicArn, sns, runs, size);
    if runs != [] && r.outcome.Raised? {
      var m := Min(size, |runs|);
      var first := BatchRun(topicArn, sns, runs[..m]);
      BatchRunOutcome(topicArn, sns, runs[..m]);
      if first.outcome.Raised? {
        if i :| FirstRaise(runs[..m], i, first.outcome.exc) {
          assert forall j :: 0 <= j <= i ==> runs[j] == runs[..m][j];
          assert FirstRaise(runs, i, r.outcome.exc);
        }
      } else {
        var rest := RunBatches(topicArn, sns, runs[m..], size);
        RunBatchesRaised(topicArn, sns, runs[m..], size);
        if i :| FirstRaise(runs[m..], i, rest.outcome.exc) {
          forall j | 0 <= j < i + m
            ensures runs[j].outcome.Ok?
          {
            if j < m {
              assert runs[j] == runs[..m][j];
            } else {
              assert runs[j] == runs[m..][j - m];
            }
          }
          assert runs[i + m] == runs[m..][i];
          assert FirstRaise(runs, i + m, r.outcome.exc);
        } else {
          assert r.calls == first.calls + rest.calls;
          assert r.calls[|r.calls| - 1] == rest.calls[|rest.calls| - 1];
        }
      }
    }
  }

  /** All batches: one settled result per request, in request order. */
  lemma {:induction false} RunBatchesSettled(topicArn: string, sns: PublishReply, runs: seq<Run<CreationResult>>,
                                             requests: seq<Json>, size: nat)
    requires size > 0 && Answers(runs, requests)
    ensures var r := RunBatches(topicArn, sns, runs, size);
            r.outcome.Ok? ==> SettledFor(r.outcome.value, requests)
    decreases |runs|
  {
    if runs != [] {
      var m := Min(size, |runs|);
      AnswersSplit(runs, requests, m);
      var first := BatchRun(topicArn, sns, runs[..m]);
      BatchRunSpec(topicArn, sns, runs[..m], requests[..m]);
      if first.outcome.Ok? {
        var rest := RunBatches(topicArn, sns, runs[m..], size);
        RunBatchesSettled(topicArn, sns, runs[m..], requests[m..], size);
        if rest.outcome.Ok? {
          SettledForAppend(first.outcome.value, rest.outcome.value, requests[..m], requests[m..]);
          TakeDrop(requests, m);
        }
      }
    }
  }

  /** All batches: one notification per batch. */
  lemma {:induction false} RunBatchesNotified(topicArn: string, sns: PublishReply, runs: seq<Run<CreationResult>>,
                                              requests: seq<Json>, size: nat)
    requires size > 0 && Answers(runs, requests)
    ensures var r := RunBatches(topicArn, sns, runs, size);
            r.outcome.Ok? ==> |Filter(r.calls, Notification)| == |Batches(runs, size)|
    decreases |runs|
  {
    if runs != [] {
      var m := Min(size, |runs|);
      AnswersSplit(runs, requests, m);
      var first := BatchRun(topicArn, sns, runs[..m]);
      BatchRunSpec(topicArn, sns, runs[..m], requests[..m]);
      if first.outcome.Ok? {
        var rest := RunBatches(topicArn, sns, runs[m..], size);
        RunBatchesNotified(topicArn, sns, runs[m..], requests[m..], size);
        FilterAppend(first.calls, rest.calls, Notification);
      }
    }
  }

  /** Two sequences of one length cut into as many batches. */
  lemma {:induction false} BatchesSameCount<A, B>(a: seq<A>, b: seq<B>, size: nat)
    requires size > 0 && |a| == |b|
    ensures |Batches(a, size)| == |Batches(b, size)|
    decreases |a|
  {
    if a != [] {
      var m := Min(size, |a|);
      BatchesSameCount(a[m..], b[m..], size);
    }
  }

  /** `create_accounts` with a positive batch size returns exactly when
      every batch does. Then the totals count every request once, the
      results are the requests' own attempts' results in request order,
      successes and failures add up to the total, and there is one
      notification per batch, ceil(n / batch_size) of them. */
  lemma CreationTotals(topicArn: string, sns: PublishReply, requests: seq<Json>, scripts: seq<Script>, size: int)
    requires size > 0 && AllScripted(requests, scripts)
    ensures var c := CreationRun(topicArn, sns, requests, scripts, size);
            && (c.outcome.Ok? <==> AllReturn(topicArn, sns, Batches(Attempts(requests, scripts), size)))
            && (c.outcome.Ok? ==>
                  var t := c.outcome.value;
                  && t.totalRequests == |t.results| == |requests|
                  && (forall i :: 0 <= i < |requests| ==> Attempt(requests[i], scripts[i]).outcome == Ok(t.results[i]))
                  && t.successfulCreations + t.failedCreations == t.totalRequests
                  && |Filter(c.calls, Notification)| == |Batches(requests, size)|
                  && (|Filter(c.calls, Notification)| - 1) * size < |requests| <= |Filter(c.calls, Notification)| * size)
  {
    var runs := Attempts(requests, scripts);
    AttemptsAnswer(requests, scripts);
    RunBatchesFirstRaised(topicArn, sns, runs, size);
    RunBatchesResults(topicArn, sns, runs, size);
    RunBatchesSettled(topicArn, sns, runs, requests, size);
    RunBatchesNotified(topicArn, sns, runs, requests, size);
    BatchesSameCount(runs, requests, size);
    BatchesCount(requests, size);
    var r := RunBatches(topicArn, sns, runs, size);
    if r.outcome.Ok? {
      CountStatusPartition(r.outcome.value);
      assert forall i :: 0 <= i < |requests| ==> r.outcome.value[i].status != Pending;
      forall i | 0 <= i < |requests|
        ensures Attempt(requests[i], scripts[i]).outcome == Ok(r.outcome.value[i])
      {
        AttemptsAt(requests, scripts, i);
      }
    }
  }

  /** Request `i`'s attempt raised `exc`, and the attempts of the requests
      before it returned. */
  ghost predicate FirstAttemptRaise(requests: seq<Json>, scripts: seq<Script>, i: int, exc: PyException) {
    && AllScripted(requests, scripts)
    && 0 <= i < |requests|
    && Attempt(requests[i], scripts[i]).outcome == Raised(exc)
    && forall j :: 0 <= j < i ==> Attempt(requests[j], scripts[j]).outcome.Ok?
  }

  /** When `create_accounts` raises, the exception is that of the first
      request, in request order, whose attempt raised, or, when no attempt
      did, the ClientError SNS raised for the notification sent last. */
  lemma CreationRaised(topicArn: string, sns: PublishReply, requests: seq<Json>, scripts: seq<Script>, size: int)
    requires size > 0 && AllScripted(requests, scripts)
    ensures var c := CreationRun(topicArn, sns, requests, scripts, size);
            c.outcome.Raised? ==>
              (exists i :: FirstAttemptRaise(requests, scripts, i, c.outcome.exc)) ||
              PublishRaised(c.calls, sns, c.outcome.exc)
  {
    var runs := Attempts(requests, scripts);
    RunBatchesRaised(topicArn, sns, runs, size);
    var r := RunBatches(topicArn, sns, runs, size);
    if r.outcome.Raised? {
      if i :| FirstRaise(runs, i, r.outcome.exc) {
        forall j | 0 <= j <= i
          ensures runs[j] == Attempt(requests[j], scripts[j])
        {
          AttemptsAt(requests, scripts, j);
        }
        assert FirstAttemptRaise(requests, scripts, i, r.outcome.exc);
      }
    }
  }

  /** One turn of the batch loop: the batch at offset `i`, then the batches
      after it. */
  lemma BatchStep(topicArn: string, sns: PublishReply, runs: seq<Run<CreationResult>>, size: nat, i: nat)
    requires size > 0 && i < |runs|
    ensures var end := Min(i + size, |runs|);
            var first := BatchRun(topicArn, sns, runs[i..end]);
            RunBatches(topicArn, sns, runs[i..], size) ==
              match first.outcome
              case Raised(e) => Run(Raised(e), first.calls)
              case Ok(results) => Continue(results, first.calls, RunBatches(topicArn, sns, runs[end..], size))
  {
    var end := Min(i + size, |runs|);
    var m := Min(size, |runs[i..]|);
    assert runs[i..][..m] == runs[i..end] && runs[i..][m..] == runs[end..];
  }

  /** Continuing twice is continuing once with both parts joined. A batch
      that raises ends the run. */
  lemma ContinueAppend(results: seq<CreationResult>, done: seq<Call>,
                       first: Run<seq<CreationResult>>, rest: Run<seq<CreationResult>>)
    ensures first.outcome.Raised? ==>
              Continue(results, done, Run(Raised(first.outcome.exc), first.calls)) ==
                Run(Raised(first.outcome.exc), done + first.calls)
    ensures first.outcome.Ok? ==>
              Continue(results, done, Continue(first.outcome.value, first.calls, rest)) ==
                Continue(results + first.outcome.value, done + first.calls, rest)
    ensures rest == Run(Ok([]), []) ==> Continue(results, done, rest) == Run(Ok(results), done)
  {
    if first.outcome.Ok? && rest.outcome.Ok? {
      assert results + (first.outcome.value + rest.outcome.value) ==
             (results + first.outcome.value) + rest.outcome.value;
    }
    assert done + (first.calls + rest.calls) == (done + first.calls) + rest.calls;
    if rest == Run(Ok([]), []) {
      assert results + [] == results && done + [] == done;
    }
  }

  /** A sequence cut in two and put back together. */
  lemma TakeDrop<T>(s: seq<T>, m: nat)
    requires m <= |s|
    ensures s[..m] + s[m..] == s
  {
  }

  lemma AppendAssociates<T>(a: seq<T>, b: seq<T>, c: seq<T>)
    ensures (a + b) + c == a + (b + c)
  {
  }

  /** One turn of the batch loop, seen from the whole run: a batch that
      raises ends it, and otherwise its results and calls join those before
      it and the loop goes on at the next batch, if any. */
  lemma LoopStep(topicArn: string, sns: PublishReply, runs: seq<Run<CreationResult>>, size: nat, i: nat,
                 whole: Run<seq<CreationResult>>, results: seq<CreationResult>, done: seq<Call>)
    requires size > 0 && i < |runs|
    requires whole == Continue(results, done, RunBatches(topicArn, sns, runs[i..], size))
    ensures var end := Min(i + size, |runs|);
            var first := BatchRun(topicArn, sns, runs[i..end]);
            && (first.outcome.Raised? ==> whole == Run(Raised(first.outcome.exc), done + first.calls))
            && (first.outcome.Ok? && end < |runs| ==>
                  whole == Continue(results + first.outcome.value, done + first.calls,
                                    RunBatches(topicArn, sns, runs[end..], size)))
            && (first.outcome.Ok? && end == |runs| ==>
                  whole == Run(Ok(results + first.outcome.value), done + first.calls))
  {
    var end := Min(i + size, |runs|);
    var first := BatchRun(topicArn, sns, runs[i..end]);
    var rest := RunBatches(topicArn, sns, runs[end..], size);
    BatchStep(topicArn, sns, runs, size, i);
    ContinueAppend(results, done, first, rest);
    if end == |runs| && first.outcome.Ok? {
      assert runs[end..] == [];
      ContinueAppend(results + first.outcome.value, done + first.calls, first, rest);
    }
  }

  /** The batch loop before the batch starting at request `i`: what is
      left to run, put after the `results` and `done` calls so far, makes
      up `whole`. */
  ghost predicate Batching(topicArn: string, sns: PublishReply, runs: seq<Run<CreationResult>>, size: nat, i: nat,
                           whole: Run<seq<CreationResult>>, results: seq<CreationResult>, done: seq<Call>)
  {
    size > 0 &&
    if i < |runs| then whole == Continue(results, done, RunBatches(topicArn, sns, runs[i..], size))
    else whole == Run(Ok(results), done)
  }

  /** The batch loop starts with nothing done. */
  lemma BatchingStarts(topicArn: string, sns: PublishReply, runs: seq<Run<CreationResult>>, size: nat)
    requires size > 0
    ensures Batching(topicArn, sns, runs, size, 0, RunBatches(topicArn, sns, runs, size), [], [])
  {
    var whole := RunBatches(topicArn, sns, runs, size);
    assert runs[0..] == runs;
    if whole.outcome.Ok? {
      assert [] + whole.outcome.value == whole.outcome.value;
    }
    assert [] + whole.calls == whole.calls;
  }

  /** One turn of the batch loop: the batch of `runs[i:i + size]` either
      raises, which ends the whole run, or the loop goes on from `i + size`. */
  lemma BatchingAdvances(topicArn: string, sns: PublishReply, runs: seq<Run<CreationResult>>, size: nat, i: nat,
                         whole: Run<seq<CreationResult>>, results: seq<CreationResult>, done: seq<Call>)
    requires i < |runs| && Batching(topicArn, sns, runs, size, i, whole, results, done)
    ensures var first := BatchRun(topicArn, sns, runs[i..Min(i + size, |runs|)]);
            && (first.outcome.Raised? ==> whole == Run(Raised(first.outcome.exc), done + first.calls))
            && (first.outcome.Ok? ==>
                  Batching(topicArn, sns, runs, size, i + size, whole, results + first.outcome.value, done + first.calls))
  {
    LoopStep(topicArn, sns, runs, size, i, whole, results, done);
  }

  class BulkAccountCreator {
    const batchSize: int
    const topicArn: string
    /** How the SNS client answers `publish`. */
    const sns: PublishReply
    /** Every call made so far, in order. */
    var log: seq<Call>

    constructor (sns: PublishReply, batchSize: int := DefaultBatchSize)
      ensures this.batchSize == batchSize && topicArn == DefaultTopicArn && this.sns == sns && log == []
    {
      this.batchSize := batchSize;
      topicArn := DefaultTopicArn;
      this.sns := sns;
      log := [];
    }

    /** The polling loop of `create_account`. */
    method AwaitStatus(initial: JobStatus, replies: seq<Reply<JobStatus>>) returns (final: Reply<JobStatus>)
      requires Settles(initial, replies)
      modifies this
      ensures final == Poll(initial, replies).final
      ensures log == old(log) + Poll(initial, replies).calls
    {
      var current := initial;
      var pending := replies;
      ghost var whole := Poll(initial, replies);
      PollBegins(initial, replies);
      ghost var asked: seq<Call> := [];
      while current.state == InProgress
        invariant Awaiting(whole, current, pending, asked)
        invariant log == old(log) + asked
        decreases |pending|
      {
        PollAdvance(current, pending, asked, whole);
        var ask := DescribeCreateAccountStatus(current.id);
        var reply := pending[0];
        AppendAssociates(old(log), asked, [ask]);
        log := log + [ask];
        asked := asked + [ask];
        if reply.ClientError? {
          return reply;
        }
        current := reply.value;
        pending := pending[1..];
      }
      PollEnds(whole, current, pending, asked);
      final := Replied(current);
    }

    /** `create_account(request)`. */
    method CreateAccount(request: Json, script: Script) returns (outcome: Outcome<CreationResult>)
      requires Scripted(script)
      modifies this
      ensures outcome == Attempt(request, script).outcome
      ensures log == old(log) + Attempt(request, script).calls
    {
      var parameters := Parameters(request);
      if parameters.Raised? {
        return Raised(parameters.exc);
      }
      var (email, name) := parameters.value;
      var result := CreationResult(request, Pending, None, None);
      log := log + [Call.CreateAccount(email, name, RoleName, BillingAccess)];
      if script.create.ClientError? {
        result := result.(status := Failed, error := Some(script.create.message));
        return Ok(result);
      }
      ghost var create := [Call.CreateAccount(email, name, RoleName, BillingAccess)];
      var final := AwaitStatus(script.create.value, script.polls);
      ghost var polls := Poll(script.create.value, script.polls).calls;
      AppendAssociates(old(log), create, polls);
      outcome := Settle(request, final, script, result);
      AppendAssociates(old(log), create + polls, Conclude(request, final, script).calls);
    }

    /** The part of `create_account` after polling. */
    method Settle(request: Json, final: Reply<JobStatus>, script: Script, pending: CreationResult)
      returns (outcome: Outcome<CreationResult>)
      requires pending == CreationResult(request, Pending, None, None)
      modifies this
      ensures outcome == Conclude(request, final, script).outcome
      ensures log == old(log) + Conclude(request, final, script).calls
    {
      var result := pending;
      if final.ClientError? {
        result := result.(status := Failed, error := Some(final.message));
        return Ok(result);
      }
      var status := final.value;
      if status.state == Succeeded {
        if status.accountId.None? {
          return Raised(KeyError("AccountId"));
        }
        var id := status.accountId.value;
        result := result.(status := Success, accountId := Some(id));
        log := log + [EnableControl(GuardrailControl, id)];
        if script.enableError.Some? {
          result := result.(status := Failed, error := script.enableError);
          return Ok(result);
        }
        var tags := TagsOf(request);
        if tags.Raised? {
          return Raised(tags.exc);
        }
        log := log + [TagResource(id, tags.value)];
        if script.tagError.Some? {
          result := result.(status := Failed, error := script.tagError);
          return Ok(result);
        }
      } else {
        result := result.(status := Failed, error := Some(status.failureReason.GetOr(UnknownError)));
      }
      return Ok(result);
    }

    /** `executor.map(self.create_account, batch)` for the batch
        `requests[lo:hi]`: every request of the batch is attempted, in
        order, whatever the others do. */
    method AttemptAll(requests: seq<Json>, scripts: seq<Script>, ghost runs: seq<Run<CreationResult>>,
                      lo: nat, hi: nat)
      returns (attempts: seq<Outcome<CreationResult>>)
      requires AttemptsOf(runs, requests, scripts) && lo <= hi <= |requests|
      modifies this
      ensures attempts == Outcomes(runs[lo..hi])
      ensures log == old(log) + CallsOf(runs[lo..hi])
    {
      attempts := [];
      assert runs[lo..lo] == [];
      for i := lo to hi
        invariant attempts == Outcomes(runs[lo..i])
        invariant log == old(log) + CallsOf(runs[lo..i])
      {
        ghost var before := log;
        var attempt := CreateAccount(requests[i], scripts[i]);
        assert AttemptedAt(runs, requests, scripts, i);
        RunsStep(runs, lo, i, old(log), before, log);
        attempts := attempts + [attempt];
      }
    }

    /** `process_batch(batch)` for the batch `requests[lo:hi]`: every
        request of the batch is attempted, in order; the first exception
        escapes before anything is published, and a ClientError from
        `publish` escapes after it. */
    method ProcessBatch(requests: seq<Json>, scripts: seq<Script>, ghost runs: seq<Run<CreationResult>>,
                        lo: nat, hi: nat)
      returns (outcome: Outcome<seq<CreationResult>>)
      requires AttemptsOf(runs, requests, scripts) && lo <= hi <= |requests|
      modifies this
      ensures outcome == BatchRun(topicArn, sns, runs[lo..hi]).outcome
      ensures log == old(log) + BatchRun(topicArn, sns, runs[lo..hi]).calls
    {
      var attempts := AttemptAll(requests, scripts, runs, lo, hi);
      var gathered := Gather(attempts);
      if gathered.Raised? {
        return Raised(gathered.exc);
      }
      var results := gathered.value;
      var successCount := CountStatus(results, Success);
      CountStatusBound(results, Success);
      var publish := Publish(topicArn, results, Summary(|results|, successCount, |results| - successCount));
      AppendAssociates(old(log), CallsOf(runs[lo..hi]), [publish]);
      log := log + [publish];
      match sns(results)
      case None => outcome := Ok(results);
      case Some(m) => outcome := Raised(UncaughtClientError(m));
    }

    /** One turn of the batch loop: `process_batch(requests[i:i + batch_size])`,
        taking the loop on to the next batch unless it raised. */
    method NextBatch(requests: seq<Json>, scripts: seq<Script>, ghost runs: seq<Run<CreationResult>>, i: nat,
                     ghost whole: Run<seq<CreationResult>>, ghost results: seq<CreationResult>, ghost done: seq<Call>)
      returns (batchResults: Outcome<seq<CreationResult>>, ghost calls: seq<Call>)
      requires batchSize > 0 && AttemptsOf(runs, requests, scripts) && i < |requests|
      requires Batching(topicArn, sns, runs, batchSize, i, whole, results, done)
      modifies this
      ensures log == old(log) + calls
      ensures batchResults.Raised? ==> whole == Run(Raised(batchResults.exc), done + calls)
      ensures batchResults.Ok? ==>
                Batching(topicArn, sns, runs, batchSize, i + batchSize, whole, results + batchResults.value, done + calls)
    {
      var end := Min(i + batchSize, |requests|);
      BatchingAdvances(topicArn, sns, runs, batchSize, i, whole, results, done);
      batchResults := ProcessBatch(requests, scripts, runs, i, end);
      calls := BatchRun(topicArn, sns, runs[i..end]).calls;
    }

    /** `create_accounts(requests)`: a zero batch size makes `range` raise
        ValueError, a negative one runs no batch, and otherwise the batch
        loop's results and counts make up the totals. */
    method CreateAccounts(requests: seq<Json>, scripts: seq<Script>) returns (outcome: Outcome<Totals>)
      requires AllScripted(requests, scripts)
      modifies this
      ensures outcome == CreationRun(topicArn, sns, requests, scripts, batchSize).outcome
      ensures log == old(log) + CreationRun(topicArn, sns, requests, scripts, batchSize).calls
    {
      if batchSize == 0 {
        return Raised(ValueError);
      }
      if batchSize < 0 {
        assert log == old(log) + [];
        return Ok(Totals(|requests|, 0, 0, []));
      }
      ghost var runs := Attempts(requests, scripts);
      AttemptsAreAttempts(requests, scripts);
      var batched, successful, failed := ProcessBatches(requests, scripts, runs);
      if batched.Raised? {
        return Raised(batched.exc);
      }
      return Ok(Totals(|requests|, successful, failed, batched.value));
    }

    /** The batch loop of `create_accounts`: the batches in order, each
        one's results appended and its successes and failures counted; an
        exception from a batch ends the loop. */
    method ProcessBatches(requests: seq<Json>, scripts: seq<Script>, ghost runs: seq<Run<CreationResult>>)
      returns (batched: Outcome<seq<CreationResult>>, successful: nat, failed: nat)
      requires batchSize > 0 && AttemptsOf(runs, requests, scripts)
      modifies this
      ensures batched == RunBatches(topicArn, sns, runs, batchSize).outcome
      ensures log == old(log) + RunBatches(topicArn, sns, runs, batchSize).calls
      ensures batched.Ok? ==>
                successful == CountStatus(batched.value, Success) && failed == CountStatus(batched.value, Failed)
    {
      var results: seq<CreationResult> := [];
      successful, failed := 0, 0;
      ghost var whole := RunBatches(topicArn, sns, runs, batchSize);
      ghost var done: seq<Call> := [];
      var i := 0;
      BatchingStarts(topicArn, sns, runs, batchSize);
      while i < |requests|
        invariant 0 <= i
        invariant Batching(topicArn, sns, runs, batchSize, i, whole, results, done)
        invariant log == old(log) + done
        invariant successful == CountStatus(results, Success) && failed == CountStatus(results, Failed)
        decreases |requests| - i
      {
        var batchResults;
        ghost var calls;
        batchResults, calls := NextBatch(requests, scripts, runs, i, whole, results, done);
        AppendAssociates(old(log), done, calls);
        done := done + calls;
        if batchResults.Raised? {
          return Raised(batchResults.exc), successful, failed;
        }
        CountStatusAppend(results, batchResults.value, Success);
        CountStatusAppend(results, batchResults.value, Failed);
        results := results + batchResults.value;
        successful := successful + CountStatus(batchResults.value, Success);
        failed := failed + CountStatus(batchResults.value, Failed);
        i := i + batchSize;
      }
      batched := Ok(results);
    }
  }
}
