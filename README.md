# Account Factory request scripts, modelled in Dafny

This project models the three scripts of `aft-configuration/scripts/` that
check and create AWS accounts for Account Factory for Terraform:

- `validate_account_request.py` checks one account request with a fail-fast
  chain of guards and answers True or False.
- `validate_bulk_account_requests.py` has a `BulkAccountValidator` that holds
  two snapshots taken when it is built: the valid OU ids and the e-mail
  addresses of existing accounts. It runs every check on a request,
  accumulates an ordered list of errors, and counts the valid and invalid
  requests of a bulk file.
- `create_bulk_accounts.py` has a `BulkAccountCreator` that cuts the
  requests into batches. For each request it creates an account and polls
  the creation job. A created account then gets one Control Tower control
  and its tags. Each batch's results are published once to an SNS topic.

The Dafny modules follow the scripts:

| module | file | models |
|---|---|---|
| `Json` | `json.dfy` | parsed JSON values (objects keep their entries in document order) and the Python operations the scripts apply to them: `in`, `[]`, `.get`, `.items()`, with the exception each raises on a value of the wrong type |
| `FieldValidators` | `field_validators.dfy` | the three regular expressions (e-mail, account name, OU path) as predicates on strings, including Python's `$` matching before one final newline, and the required custom-field and tag keys |
| `SingleRequestValidation` | `validate_account_request.dfy` | the fail-fast chain as a function giving the first failing guard, the guards stated one by one, and the verdict |
| `BulkValidation` | `validate_bulk_account_requests.dfy` | the validator class with its two snapshots as `const` fields, the per-request check that clears `valid` and appends errors step by step, and the bulk pass that counts |
| `BulkCreation` | `create_bulk_accounts.dfy` | the creator class: the polling loop, the result record it fills in, the batch loop, and every service call it makes, recorded in order in a `log` field |

The AWS services are replaced by inputs. A `Script` per request says what
`create_account` answers, what each successive
`describe_create_account_status` answers, and whether `enable_control` and
`tag_resource` raise a ClientError. A `PublishReply` says whether SNS's
`publish` raises a ClientError for a batch's results. Each method of the creator is proved
against a function of these inputs (`Attempt`, `BatchRun`, `RunBatches`,
`CreationRun`). The method's outcome is the function's outcome, and the
calls it appends to `log` are the function's calls. The properties are
proved as lemmas about those functions.

Python exceptions are values (`Outcome` is `Ok(v)` or `Raised(e)`). A
KeyError keeps its key. Only the class of any other exception is kept.

## Model

| member | source | states |
|---|---|---|
| Json.Lookup | aft-configuration/scripts/validate_account_request.py:36 | a dict lookup finds a value exactly when the key is present, and the value found is stored under that key |
| Json.SubstringOccurs | aft-configuration/scripts/validate_account_request.py:72 | `key in s` on a string holds exactly when the key occurs in it at some offset |
| Json.ContainsAllOfObject | aft-configuration/scripts/validate_account_request.py:23-26 | `all(k in d ...)` on a dict never raises and depends on the keys only, never on the values |
| Json.ContainsAllEach | aft-configuration/scripts/validate_account_request.py:26 | `all(...)` is True exactly when every membership test is True, and raises exactly when the first test raises (a value that is not a container) |
| FieldValidators.MatchesIff | aft-configuration/scripts/validate_account_request.py:8-21 | `re.match` with `^X$` accepts exactly the words of X, and the words of X followed by one newline |
| FieldValidators.EmailBodyIffSplit | aft-configuration/scripts/validate_account_request.py:10 | a string is in the e-mail language exactly when it splits as local part, `@`, domain, `.`, and at least two letters, each over its character class |
| FieldValidators.EmailHasOneAt | aft-configuration/scripts/validate_account_request.py:8-11 | an address the e-mail pattern accepts holds exactly one `@` |
| FieldValidators.AccountNameIsOuPath | aft-configuration/scripts/validate_account_request.py:13-21 | every valid account name is a valid OU path |
| FieldValidators.EmptyNeverMatches | aft-configuration/scripts/validate_account_request.py:44-54 | the empty string, which a missing field defaults to, fails every pattern |
| FieldValidators.NoNewlineMatchesIff | aft-configuration/scripts/validate_account_request.py:8-21 | a string without a final newline matches exactly when it is a word of the pattern's language |
| FieldValidators.TrailingNewlineExample | aft-configuration/scripts/validate_account_request.py:18-21 | `"dev-account_1\n"` is a valid account name and `"dev-account_1\n\n"` is not |
| FieldValidators.EmailExample | aft-configuration/scripts/validate_account_request.py:8-11 | `ops@example.com` passes the e-mail pattern |
| FieldValidators.ShortTopLevelDomainExample | aft-configuration/scripts/validate_account_request.py:10 | `ops@example.c` fails: the top-level domain needs two letters |
| FieldValidators.OneLetterTopLevelDomain | aft-configuration/scripts/validate_account_request.py:10 | no string whose next-to-last character is `.` is in the e-mail language |
| SingleRequestValidation.ValidateAccountRequest | aft-configuration/scripts/validate_account_request.py:28-80 | the validator returns True exactly when every guard holds, each guard read on its own; it never raises |
| SingleRequestValidation.AcceptsIffAllGuards | aft-configuration/scripts/validate_account_request.py:28-76 | the chain rejects nothing exactly when all nine guards hold |
| SingleRequestValidation.AcceptedGuardsHold | aft-configuration/scripts/validate_account_request.py:30-76 | when the chain accepts, every guard holds |
| SingleRequestValidation.GuardsHoldAccepted | aft-configuration/scripts/validate_account_request.py:30-76 | when every guard holds, the chain accepts |
| SingleRequestValidation.AllGuardsStages | aft-configuration/scripts/validate_account_request.py:43-74 | every guard holding means the three fields are accepted and both sections hold their required keys |
| SingleRequestValidation.CheckFormatSpec | aft-configuration/scripts/validate_account_request.py:44-54 | a format check passes exactly when its field (or `''` when absent) is a string the pattern accepts, and rejects only with its own guard or an exception |
| SingleRequestValidation.CheckKeysSpec | aft-configuration/scripts/validate_account_request.py:57-74 | a section check passes exactly when the section is present and holds every required key; it fails its presence guard exactly when the section is absent |
| SingleRequestValidation.StagesAccept | aft-configuration/scripts/validate_account_request.py:44-74 | the five checks after the parameters all pass exactly when the three fields are accepted and both sections are complete |
| SingleRequestValidation.CheckFormatRejects | aft-configuration/scripts/validate_account_request.py:44-54 | a format check rejects only with its own guard or an exception |
| SingleRequestValidation.CheckKeysRejects | aft-configuration/scripts/validate_account_request.py:57-74 | a section check rejects only with its own two guards or an exception |
| SingleRequestValidation.RejectionStage | aft-configuration/scripts/validate_account_request.py:44-74 | a guard's rejection comes from the check of that guard, and every check before it passed |
| SingleRequestValidation.StageFailed | aft-configuration/scripts/validate_account_request.py:44-74 | the guard a check rejects with does not hold |
| SingleRequestValidation.StagesBeforeHold | aft-configuration/scripts/validate_account_request.py:44-74 | every guard before the one rejected holds |
| SingleRequestValidation.FirstFailedGuard | aft-configuration/scripts/validate_account_request.py:28-76 | the guard reported is the first, in the fixed order, that does not hold |
| SingleRequestValidation.MissingKeysRejected | aft-configuration/scripts/validate_account_request.py:32-41 | a missing `account_request` or `control_tower_parameters` is rejected at its own guard |
| SingleRequestValidation.MissingSectionRejected | aft-configuration/scripts/validate_account_request.py:57-68 | with valid fields, a missing `custom_fields`, or complete custom fields and missing `account_tags`, is rejected at that section's guard |
| SingleRequestValidation.MissingFieldFailsFormat | aft-configuration/scripts/validate_account_request.py:44-54 | a missing AccountEmail, AccountName or ManagedOrganizationalUnit fails its format check |
| BulkValidation.CollectEmptyIff | aft-configuration/scripts/validate_bulk_account_requests.py:65-103 | the error list ends empty exactly when it starts empty and every check passes |
| BulkValidation.CollectExtends | aft-configuration/scripts/validate_bulk_account_requests.py:74-99 | the checks only append: earlier errors stay a prefix |
| BulkValidation.CollectSources | aft-configuration/scripts/validate_bulk_account_requests.py:74-103 | every entry added is the error of a check that failed or the exception of one that raised |
| BulkValidation.CollectRanked | aft-configuration/scripts/validate_bulk_account_requests.py:74-99 | with the checks in increasing rank, the errors come out strictly ranked |
| BulkValidation.CountsPartition | aft-configuration/scripts/validate_bulk_account_requests.py:119-123 | the valid and invalid counts add up to the number of results |
| BulkValidation.NoInvalidIff | aft-configuration/scripts/validate_bulk_account_requests.py:119-123 | no result is counted invalid exactly when every result is valid |
| BulkValidation.LabelledRanked | aft-configuration/scripts/validate_bulk_account_requests.py:74-103 | whatever the checks answer, the errors follow the order e-mail, name, OU, custom fields, tags, at most one each, and an exception can only come last |
| BulkValidation.LabelledEmptyIff | aft-configuration/scripts/validate_bulk_account_requests.py:65-99 | the error list is empty exactly when all five checks pass |
| BulkValidation.LabelledEmailFirst | aft-configuration/scripts/validate_bulk_account_requests.py:74-77 | the e-mail error comes first exactly when the e-mail check fails; an e-mail check that raises leaves its exception as the only entry |
| BulkValidation.LabelledSources | aft-configuration/scripts/validate_bulk_account_requests.py:74-103 | each entry names a check that failed, or is the exception of one that raised |
| BulkValidation.LabelledOnlyEmailOrOu | aft-configuration/scripts/validate_bulk_account_requests.py:74-99 | when the name and section checks pass, only the e-mail and OU errors can appear |
| BulkValidation.BulkAccountValidator.constructor | aft-configuration/scripts/validate_bulk_account_requests.py:12-16 | the validator keeps the two snapshots it is given; they are `const` and no check can change them |
| BulkValidation.BulkAccountValidator.ValidateEmailIff | aft-configuration/scripts/validate_bulk_account_requests.py:42-47 | `validate_email` is True exactly for a well-formed address of no existing account, and raises TypeError exactly on a value that is not a string |
| BulkValidation.BulkAccountValidator.ValidateAccountNameIff | aft-configuration/scripts/validate_bulk_account_requests.py:53-56 | `validate_account_name` is True exactly for a string the name pattern accepts, and raises exactly on a value that is not a string |
| BulkValidation.BulkAccountValidator.ValidateCustomFieldsIff | aft-configuration/scripts/validate_bulk_account_requests.py:58-61 | `validate_custom_fields` is True exactly when the three required keys are all `in` the value, and raises exactly when the value is not a container |
| BulkValidation.BulkAccountValidator.Record | aft-configuration/scripts/validate_bulk_account_requests.py:74-103 | one check step clears `valid` and appends exactly the check's error when it fails, or its exception when it raises, and leaves both alone when it passes |
| BulkValidation.BulkAccountValidator.ValidateAccountRequest | aft-configuration/scripts/validate_bulk_account_requests.py:63-105 | `valid` is False exactly when `errors` is non-empty, and the result is the one the checks determine; it never raises |
| BulkValidation.BulkAccountValidator.RunChecks | aft-configuration/scripts/validate_bulk_account_requests.py:74-103 | the five checks run in order, each failure appends its error, an exception appends one entry and ends them, and `valid` tracks the list |
| BulkValidation.BulkAccountValidator.ValidateBulkRequests | aft-configuration/scripts/validate_bulk_account_requests.py:107-126 | `total_requests` is the input length, the results match the requests position by position, the counts are those of valid and invalid results, and they add up to the total |
| BulkValidation.BulkAccountValidator.Tally | aft-configuration/scripts/validate_bulk_account_requests.py:119-124 | the counting loop keeps every result in order and counts exactly the valid and the invalid ones |
| BulkValidation.BulkAccountValidator.ErrorsOrdered | aft-configuration/scripts/validate_bulk_account_requests.py:74-103 | a request's errors are strictly ordered by check, at most one per check, with an exception only last |
| BulkValidation.BulkAccountValidator.MissingStructureOneError | aft-configuration/scripts/validate_bulk_account_requests.py:70-103 | a missing `account_request` or `control_tower_parameters`, or a request that is not a dict, gives exactly one "Error during validation" entry |
| BulkValidation.BulkAccountValidator.EmailErrorIff | aft-configuration/scripts/validate_bulk_account_requests.py:74-77 | the e-mail error is reported exactly when the address is a string that is malformed or already taken; a non-string address ends the checks with a TypeError |
| BulkValidation.BulkAccountValidator.ValidIff | aft-configuration/scripts/validate_bulk_account_requests.py:65-103 | a request has no errors exactly when both sections are found and every field passes its check, read field by field |
| BulkValidation.BulkAccountValidator.ChecksOnDicts | aft-configuration/scripts/validate_bulk_account_requests.py:74-99 | on dicts, each of the five checks passes exactly when its own field or section does |
| BulkValidation.BulkAccountValidator.SingleAcceptedFlagsOnlyEmailOrOu | aft-configuration/scripts/validate_bulk_account_requests.py:74-99 | a request the single validator accepts can only be flagged here for a taken address or an OU missing from the snapshot |
| BulkValidation.BulkAccountValidator.FormatGuardsPassChecks | aft-configuration/scripts/validate_bulk_account_requests.py:74-87 | the single validator's e-mail and name guards make the name check pass and the e-mail and OU checks raise nothing |
| BulkValidation.BulkAccountValidator.SectionGuardsPassChecks | aft-configuration/scripts/validate_bulk_account_requests.py:89-99 | the single validator's section guards make the custom-field and tag checks pass |
| BulkValidation.BulkAccountValidator.BulkValidSingleNeedsOnlyOuFormat | aft-configuration/scripts/validate_bulk_account_requests.py:49-51 | a request with no errors here passes the single validator exactly when its OU id also has the form of an OU path |
| BulkValidation.BulkAccountValidator.SectionPresent | aft-configuration/scripts/validate_bulk_account_requests.py:90-97 | a section that holds all of a non-empty key list is present, since the `{}` default holds no key |
| BulkCreation.PollStopsAtFirstSettled | aft-configuration/scripts/create_bulk_accounts.py:40-45 | polling asks about each IN_PROGRESS status in turn, stops at the first reply in another state or at a ClientError, and makes no poll when the first status is already settled |
| BulkCreation.PollsOnly | aft-configuration/scripts/create_bulk_accounts.py:41-45 | polling makes neither a control, a tag nor a publish call |
| BulkCreation.PollAsWrittenDiffers | aft-configuration/scripts/create_bulk_accounts.py:40-45 | as written, polling agrees with the intended loop when no poll answers, and otherwise raises KeyError('State') right after the first poll |
| BulkCreation.PollEnvelopeCounterexample | aft-configuration/scripts/create_bulk_accounts.py:43-45 | a job that succeeds at the first poll ends in KeyError('State') as written, and in that success as intended |
| BulkCreation.ProvisionCalls | aft-configuration/scripts/create_bulk_accounts.py:51-61 | every call made after a job succeeded is a control or tag call |
| BulkCreation.ProvisionSuccess | aft-configuration/scripts/create_bulk_accounts.py:47-61 | a success after the job succeeded carries its account id and made exactly the control call and then the tag call |
| BulkCreation.ConcludeNoNotification | aft-configuration/scripts/create_bulk_accounts.py:47-68 | nothing after polling publishes |
| BulkCreation.ConcludeSuccess | aft-configuration/scripts/create_bulk_accounts.py:47-61 | after polling, a success comes from a SUCCEEDED status's account id, with exactly one control call and one tag call on it |
| BulkCreation.AttemptCalls | aft-configuration/scripts/create_bulk_accounts.py:27-68 | an attempt's outcome, and its control, tag and publish calls, are those made after polling |
| BulkCreation.AttemptSettled | aft-configuration/scripts/create_bulk_accounts.py:18-70 | every result returned is about its own request and is `success` (with an account id and no error) or `failed` (with an error), never `pending` |
| BulkCreation.SuccessProvisionsOnce | aft-configuration/scripts/create_bulk_accounts.py:47-61 | a created account gets exactly one control call and one tag call, on the new account id, with the request's tags |
| BulkCreation.SucceededProvisions | aft-configuration/scripts/create_bulk_accounts.py:47-61 | a job that settles in SUCCEEDED with an account id, with no ClientError from the control or tag call and readable tags, gives `success` with that id, after exactly one control call and then one tag call on it |
| BulkCreation.OtherStateFails | aft-configuration/scripts/create_bulk_accounts.py:62-64 | a job settled in a state other than SUCCEEDED gives `failed`, the FailureReason or 'Unknown error', no account id, and no control or tag call |
| BulkCreation.ClientErrorFails | aft-configuration/scripts/create_bulk_accounts.py:47-68 | a ClientError at any step gives `failed` with its text; raised by the control or the tag call it keeps the account id |
| BulkCreation.TagsOnePerEntry | aft-configuration/scripts/create_bulk_accounts.py:60 | the tag list has one `{Key, Value}` per entry of `account_tags`, in order, and exists exactly when `account_tags` is a dict |
| BulkCreation.AttemptNoPublish | aft-configuration/scripts/create_bulk_accounts.py:18-70 | creating one account never publishes |
| BulkCreation.CallsOfNoPublish | aft-configuration/scripts/create_bulk_accounts.py:76-77 | attempts that do not publish, run one after the other, do not publish |
| BulkCreation.Attempts | aft-configuration/scripts/create_bulk_accounts.py:77 | there is one attempt per request |
| BulkCreation.AttemptsAt | aft-configuration/scripts/create_bulk_accounts.py:77 | attempt i is the attempt of request i |
| BulkCreation.AttemptsAnswer | aft-configuration/scripts/create_bulk_accounts.py:76-77 | each attempt answers its own request with a settled result unless it raised, and publishes nothing |
| BulkCreation.GatherFirstRaised | aft-configuration/scripts/create_bulk_accounts.py:77 | `list(executor.map(...))` yields every result in request order when none raised, and otherwise the first exception in request order |
| BulkCreation.GatherRaisedStays | aft-configuration/scripts/create_bulk_accounts.py:77 | an exception among the first attempts is the one the whole list raises |
| BulkCreation.CountStatusPartition | aft-configuration/scripts/create_bulk_accounts.py:111-112 | the successes, failures and pending results add up to all of them, and none is pending exactly when no result is `pending` |
| BulkCreation.CountStatusAppend | aft-configuration/scripts/create_bulk_accounts.py:110-112 | counting over joined results adds the two counts |
| BulkCreation.SummaryCountsFailures | aft-configuration/scripts/create_bulk_accounts.py:80-88 | with no result pending, the summary's `failed` (total minus successes) is the number of failed results |
| BulkCreation.BatchRunSpec | aft-configuration/scripts/create_bulk_accounts.py:72-94 | when no attempt of a batch raises, it publishes exactly once, with one settled result per request in order and their summary, and it returns those results exactly when `publish` raises no ClientError; when an attempt raises, the batch raises its exception and publishes nothing |
| BulkCreation.BatchRunOutcome | aft-configuration/scripts/create_bulk_accounts.py:76-94 | a batch that returns gives its attempts' results one for one in order; one that raises carries the exception of its first attempt to raise, or else the ClientError of the `publish` it made last |
| BulkCreation.BatchesConcat | aft-configuration/scripts/create_bulk_accounts.py:106-107 | the batches put back together give the requests |
| BulkCreation.BatchesSizes | aft-configuration/scripts/create_bulk_accounts.py:106-107 | every batch holds between 1 and `batch_size` requests, and every batch but the last exactly `batch_size` |
| BulkCreation.BatchesCount | aft-configuration/scripts/create_bulk_accounts.py:106-107 | there are ceil(n / batch_size) batches |
| BulkCreation.TwentyFiveInTens | aft-configuration/scripts/create_bulk_accounts.py:106-107 | twenty-five requests in batches of ten make batches of 10, 10 and 5 |
| BulkCreation.BatchSizeEdges | aft-configuration/scripts/create_bulk_accounts.py:106 | a batch size of zero raises ValueError and a negative one runs no batch, and neither calls a service |
| BulkCreation.RunBatchesFirstRaised | aft-configuration/scripts/create_bulk_accounts.py:106-110 | the batch loop returns exactly when every batch returns, and when it raises, it raises the exception of the first batch that raised |
| BulkCreation.RunBatchesResults | aft-configuration/scripts/create_bulk_accounts.py:106-110 | a batch loop that returns gives the result of every attempt, one for one, in request order |
| BulkCreation.RunBatchesRaised | aft-configuration/scripts/create_bulk_accounts.py:76-110 | a batch loop that raises carries the exception of the first attempt to raise, in request order, or, when none did, the ClientError of the last `publish` |
| BulkCreation.RunBatchesNotified | aft-configuration/scripts/create_bulk_accounts.py:106-108 | over all batches, there is exactly one notification per batch |
| BulkCreation.CreationTotals | aft-configuration/scripts/create_bulk_accounts.py:96-117 | `create_accounts` returns exactly when every batch returns; then `total_requests` is the number of requests and of results, result i is what `create_account` returned for request i, successes and failures add up to the total, and ceil(n / batch_size) notifications are published |
| BulkCreation.CreationRaised | aft-configuration/scripts/create_bulk_accounts.py:76-110 | when `create_accounts` raises, it raises the exception of the first request, in request order, whose `create_account` raised, or else the ClientError of the last `publish` |
| BulkCreation.BatchStep | aft-configuration/scripts/create_bulk_accounts.py:106-110 | the batch at offset i either raises, ending the run, or is followed by the batches after it |
| BulkCreation.LoopStep | aft-configuration/scripts/create_bulk_accounts.py:106-112 | one turn of the batch loop adds the batch's results and calls to those before it, or ends the run with its exception |
| BulkCreation.BulkAccountCreator.constructor | aft-configuration/scripts/create_bulk_accounts.py:11-16 | the creator keeps the batch size, uses the fixed topic ARN, and has made no call yet |
| BulkCreation.BulkAccountCreator.AwaitStatus | aft-configuration/scripts/create_bulk_accounts.py:40-45 | the polling loop ends where the intended polling does and logs exactly its polls |
| BulkCreation.BulkAccountCreator.CreateAccount | aft-configuration/scripts/create_bulk_accounts.py:18-70 | `create_account` returns or raises what one attempt does, and logs exactly its calls |
| BulkCreation.BulkAccountCreator.Settle | aft-configuration/scripts/create_bulk_accounts.py:47-68 | the result filled in after polling, and the control and tag calls logged, are those of the settled status |
| BulkCreation.BulkAccountCreator.AttemptAll | aft-configuration/scripts/create_bulk_accounts.py:76-77 | every request of the batch is attempted in order, whatever the others do, and their calls are logged in that order |
| BulkCreation.BulkAccountCreator.ProcessBatch | aft-configuration/scripts/create_bulk_accounts.py:72-94 | `process_batch` returns or raises what the batch does, including a ClientError from `publish`, and logs its attempts' calls and then its one notification |
| BulkCreation.BulkAccountCreator.NextBatch | aft-configuration/scripts/create_bulk_accounts.py:106-110 | one turn of the batch loop processes `requests[i:i + batch_size]` and moves the loop on, or ends the whole run with its exception |
| BulkCreation.BulkAccountCreator.ProcessBatches | aft-configuration/scripts/create_bulk_accounts.py:105-115 | the batch loop's results, calls and counts are those of all batches in order, the counts being the successes and failures among the results |
| BulkCreation.BulkAccountCreator.CreateAccounts | aft-configuration/scripts/create_bulk_accounts.py:96-117 | `create_accounts` returns or raises what the whole run does and logs exactly its calls |

## Left out

- The `main()` functions of all three scripts (JSON on stdin, `print`, exit codes) are not modelled. The one in `create_bulk_accounts.py` uses `sys` (line 122) without importing it.
- `_get_valid_ous` and `_get_existing_accounts` list OUs and accounts through boto3 paginators. They are network I/O, so the constructor takes their results as arguments.
- The `print` calls of the single validator are not modelled; `Guard.Message` gives the line each guard prints.
- `ThreadPoolExecutor` is modelled as a sequential map in request order. `executor.map` keeps that order, and a worker's exception reaches the caller when `list()` gets to its result. Concurrency, interleaving and `max_workers` are not modelled.
- `time.sleep(5)` and `time.sleep(30)` are timing only and are left out.
- The services are scripted replies. Their parameter validation, throttling, and response fields other than the status's `Id`, `State`, `AccountId` and `FailureReason` are not modelled.
- The text of an exception is kept only for a KeyError (its key) and a ClientError (its message, taken as given). For other exceptions, only the class is kept.
- The SNS `Subject` line and the `json.dumps` encoding of the message are not modelled. The notification records the topic, the batch results and the summary.
- JSON numbers are integers. Floats only matter to the scripts as values that are neither strings nor containers.
- A JSON object is a list of entries, and a lookup takes the first entry for a key. `json.load` never leaves two entries with the same key.
- BulkCreation.Poll requires that the scripted replies leave IN_PROGRESS or raise before they run out. A job that stays IN_PROGRESS forever would make the script poll forever; that is a liveness matter.
- BulkCreation.Poll stores the status each poll returns, as evidently intended, rather than the whole response as written at lines 43-45. See "## Findings"; `PollAsWritten` models the code as written.
- BulkCreation.BulkAccountCreator.CreateAccount takes the request's scripted replies as an argument. The creator's methods take the scripts of all requests and work on a window `requests[lo:hi]` rather than on a copied slice.
- BulkCreation.BulkAccountCreator.ProcessBatch does not model `max_workers=self.batch_size` (a negative or zero value would make the executor raise). It is only reached with a positive batch size, because `range` rejects zero and a negative one yields no batch.
- BulkValidation.BulkAccountValidator.ValidateOu has no contract of its own. It is list membership by definition; `ChecksOnDicts` and `ValidIff` state what it contributes.

## Findings

| source | as written | input that shows it | evidently intended | confidence | as-written member | corrected member |
|---|---|---|---|---|---|---|
| aft-configuration/scripts/create_bulk_accounts.py:43-45 | the polling loop stores the whole `describe_create_account_status` response in `create_status`, so the next loop test reads `State` from a dict whose keys are `CreateAccountStatus` and `ResponseMetadata`, and raises KeyError | `create_account` answers State IN_PROGRESS and the first poll answers a SUCCEEDED status: KeyError('State') escapes `create_account` (it is not a ClientError) and ends the batch and the whole run | store `response['CreateAccountStatus']` and poll until the job leaves IN_PROGRESS | high (not executed) | BulkCreation.PollAsWritten, with BulkCreation.PollEnvelopeCounterexample and BulkCreation.PollAsWrittenDiffers | BulkCreation.Poll, with BulkCreation.PollStopsAtFirstSettled |
