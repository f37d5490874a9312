/** The bulk validator: one object holding two read-only snapshots (the
    valid OU ids and the e-mail addresses of existing accounts), a check per
    field, a per-request validation that runs every check and accumulates an
    ordered list of errors, and a bulk pass that counts valid and invalid
    requests. */
module BulkValidation {
  import opened Json
  import opened FieldValidators
  import SingleRequestValidation

  /** The entries a request's `errors` list can hold, in the order the checks
      run; an exception ends the list. */
  datatype ValidationError =
    | InvalidOrDuplicateEmail
    | InvalidAccountNameFormat
    | InvalidManagedOu
    | MissingCustomFields
    | MissingAccountTags
    | ErrorDuringValidation(exc: PyException)
  {
    function Rank(): nat {
      match this
      case InvalidOrDuplicateEmail => 0
      case InvalidAccountNameFormat => 1
      case InvalidManagedOu => 2
      case MissingCustomFields => 3
      case MissingAccountTags => 4
      case ErrorDuringValidation(_) => 5
    }

    /** The string appended to `errors`. The text of an exception other than
        a KeyError is the interpreter's own wording; only its class is kept. */
    function Message(): string {
      match this
      case InvalidOrDuplicateEmail => "Invalid or duplicate AccountEmail"
      case InvalidAccountNameFormat => "Invalid AccountName format"
      case InvalidManagedOu => "Invalid ManagedOrganizationalUnit"
      case MissingCustomFields => "Missing required custom fields"
      case MissingAccountTags => "Missing required account tags"
      case ErrorDuringValidation(e) => "Error during validation: " + ExceptionText(e)
    }
  }

  /** `str(e)`: a KeyError shows its key in quotes, a ClientError its
      message. */
  function ExceptionText(e: PyException): string {
    match e
    case KeyError(k) => "'" + k + "'"
    case TypeError => "TypeError"
    case AttributeError => "AttributeError"
    case ValueError => "ValueError"
    case UncaughtClientError(m) => m
  }

  /** The dict `validate_account_request` returns. */
  datatype ValidationResult = ValidationResult(valid: bool, errors: seq<ValidationError>)

  /** The dict `validate_bulk_requests` returns. */
  datatype BulkSummary = BulkSummary(totalRequests: nat, validRequests: nat,
                                     invalidRequests: nat, validationResults: seq<ValidationResult>)

  /** The errors list after running `checks` in order on a list that
      already holds `errors`: a check that fails appends its error, and one
      that raises appends ErrorDuringValidation and ends the run. */
  function Collect(errors: seq<ValidationError>, checks: seq<(Outcome<bool>, ValidationError)>)
    : seq<ValidationError>
    decreases checks
  {
    if checks == [] then errors
    else
      match checks[0].0
      case Raised(e) => errors + [ErrorDuringValidation(e)]
      case Ok(passed) => Collect(errors + (if passed then [] else [checks[0].1]), checks[1..])
  }

  /** Running `check` and then `rest`: the step of `check`, then the
      rest unless it raised. */
  lemma CollectCons(errors: seq<ValidationError>, check: (Outcome<bool>, ValidationError),
                    rest: seq<(Outcome<bool>, ValidationError)>)
    ensures check.0.Raised? ==>
              Collect(errors, [check] + rest) == errors + [ErrorDuringValidation(check.0.exc)]
    ensures check.0.Ok? ==>
              Collect(errors, [check] + rest) ==
              Collect(errors + (if check.0.value then [] else [check.1]), rest)
  {
    assert ([check] + rest)[1..] == rest;
  }

  /** The outcomes of the five checks, each with the error it adds. */
  function Labelled(email: Outcome<bool>, name: Outcome<bool>, ou: Outcome<bool>,
                    fields: Outcome<bool>, tags: Outcome<bool>): seq<(Outcome<bool>, ValidationError)>
  {
    [ (email, InvalidOrDuplicateEmail),
      (name, InvalidAccountNameFormat),
      (ou, InvalidManagedOu),
      (fields, MissingCustomFields),
      (tags, MissingAccountTags) ]
  }

  /** Ranks strictly increase along the list. */
  predicate StrictlyRanked(errors: seq<ValidationError>) {
    forall i, j :: 0 <= i < j < |errors| ==> errors[i].Rank() < errors[j].Rank()
  }

  /** The number of valid results. */
  function CountValid(results: seq<ValidationResult>): nat {
    if results == [] then 0
    else CountValid(results[..|results| - 1]) + (if results[|results| - 1].valid then 1 else 0)
  }

  /** The number of invalid results. */
  function CountInvalid(results: seq<ValidationResult>): nat {
    if results == [] then 0
    else CountInvalid(results[..|results| - 1]) + (if results[|results| - 1].valid then 0 else 1)
  }

  class BulkAccountValidator {
    /** The OU ids listed when the validator was built. */
    const validOus: seq<string>
    /** The e-mail addresses of the accounts that existed then. */
    const existingAccounts: seq<string>

    /** The snapshots are handed in; listing them is left to the caller. */
    constructor (validOus: seq<string>, existingAccounts: seq<string>)
      ensures this.validOus == validOus && this.existingAccounts == existingAccounts
    {
      this.validOus := validOus;
      this.existingAccounts := existingAccounts;
    }

    /** `validate_email`: the address passes the pattern and belongs to no
        existing account; a value that is not a string raises TypeError in
        `re.match`. */
    function ValidateEmail(email: Json): Outcome<bool> {
      var wellFormed :- ReMatch(EmailAddress, email);
      if !wellFormed then Ok(false) else Ok(email.s !in existingAccounts)
    }

    /** `validate_ou`: list membership in the snapshot, with no format check;
        it never raises. */
    function ValidateOu(ouId: Json): bool {
      ouId.JString? && ouId.s in validOus
    }

    /** `validate_account_name`: the name passes the pattern; a value that
        is not a string raises TypeError. */
    function ValidateAccountName(name: Json): Outcome<bool> {
      ReMatch(AccountName, name)
    }

    /** `validate_custom_fields`: every required key is `in` the value. */
    function ValidateCustomFields(customFields: Json): Outcome<bool> {
      ContainsAll(customFields, RequiredCustomFields)
    }

    /** `validate_email` accepts exactly the well-formed addresses of no
        existing account, and raises only on a value that is not a string. */
    lemma ValidateEmailIff(email: Json)
      ensures ValidateEmail(email).Raised? <==> !email.JString?
      ensures ValidateEmail(email).Raised? ==> ValidateEmail(email).exc == TypeError
      ensures ValidateEmail(email) == Ok(true) <==>
                email.JString? && Accepts(EmailAddress, email.s) && email.s !in existingAccounts
    {
      if email.JString? {
        MatchesIff(EmailAddress, email.s);
      }
    }

    /** `validate_account_name` accepts exactly the words of the name
        pattern (with at most one final newline). */
    lemma ValidateAccountNameIff(name: Json)
      ensures ValidateAccountName(name).Raised? <==> !name.JString?
      ensures ValidateAccountName(name) == Ok(true) <==> name.JString? && Accepts(AccountName, name.s)
    {
      if name.JString? {
        MatchesIff(AccountName, name.s);
      }
    }

    /** `validate_custom_fields` holds exactly when every required key is
        `in` the value, and raises exactly when the value does not support
        `in`. */
    lemma ValidateCustomFieldsIff(customFields: Json)
      ensures ValidateCustomFields(customFields) == Ok(true) <==>
                forall k :: k in RequiredCustomFields ==> Contains(customFields, k) == Ok(true)
      ensures ValidateCustomFields(customFields).Raised? <==>
                Contains(customFields, "environment").Raised?
    {
      ContainsAllEach(customFields, RequiredCustomFields);
    }

    /** `self.validate_email(ct_params.get('AccountEmail', ''))`. */
    function EmailCheck(c: Json): Outcome<bool> {
      var email :- Get(c, "AccountEmail", JString(""));
      ValidateEmail(email)
    }

    /** `self.validate_account_name(ct_params.get('AccountName', ''))`. */
    function NameCheck(c: Json): Outcome<bool> {
      var name :- Get(c, "AccountName", JString(""));
      ValidateAccountName(name)
    }

    /** `self.validate_ou(ct_params.get('ManagedOrganizationalUnit', ''))`. */
    function OuCheck(c: Json): Outcome<bool> {
      var ou :- Get(c, "ManagedOrganizationalUnit", JString(""));
      Ok(ValidateOu(ou))
    }

    /** `self.validate_custom_fields(account_request.get('custom_fields', {}))`. */
    function CustomFieldsCheck(a: Json): Outcome<bool> {
      var fields :- Get(a, "custom_fields", JObject([]));
      ValidateCustomFields(fields)
    }

    /** `all(tag in account_tags for tag in required_tags)` with
        `account_tags = account_request.get('account_tags', {})`. */
    function TagsCheck(a: Json): Outcome<bool> {
      var tags :- Get(a, "account_tags", JObject([]));
      ContainsAll(tags, RequiredTags)
    }

    /** The five checks `validate_account_request` runs on the account
        request `a` and its parameters `c`, each with the error it adds. A
        missing field reads as `''`, a missing section as `{}`. */
    function Checks(a: Json, c: Json): seq<(Outcome<bool>, ValidationError)> {
      Labelled(EmailCheck(c), NameCheck(c), OuCheck(c), CustomFieldsCheck(a), TagsCheck(a))
    }

    /** One `if not check: valid = False; errors.append(...)` step; an
        exception appends "Error during validation" and ends the checks. */
    static method Record(valid: bool, errors: seq<ValidationError>, outcome: Outcome<bool>,
                         error: ValidationError)
      returns (valid': bool, errors': seq<ValidationError>, raised: bool)
      ensures raised <==> outcome.Raised?
      ensures valid' <==> valid && outcome == Ok(true)
      ensures outcome.Raised? ==> errors' == errors + [ErrorDuringValidation(outcome.exc)]
      ensures outcome.Ok? ==> errors' == errors + (if outcome.value then [] else [error])
    {
      valid', errors', raised := valid, errors, false;
      match outcome {
        case Raised(e) =>
          valid', errors', raised := false, errors + [ErrorDuringValidation(e)], true;
        case Ok(passed) =>
          if !passed {
            valid' := false;
            errors' := errors + [error];
          }
      }
    }

    /** The errors `validate_account_request` reports for `request`. */
    function ExpectedErrors(request: Json): seq<ValidationError> {
      match Subscript(request, "account_request")
      case Raised(e) => [ErrorDuringValidation(e)]
      case Ok(a) =>
        match Subscript(a, "control_tower_parameters")
        case Raised(e) => [ErrorDuringValidation(e)]
        case Ok(c) => Collect([], Checks(a, c))
    }

    /** The result `validate_account_request` returns for `request`. */
    function Expected(request: Json): ValidationResult {
      var errors := ExpectedErrors(request);
      ValidationResult(errors == [], errors)
    }

    /** `validate_account_request`: runs the checks in order, clears `valid`
        and appends an error for each that fails, and on an exception appends
        "Error during validation" and stops. It never raises. */
    method ValidateAccountRequest(request: Json) returns (result: ValidationResult)
      ensures result.valid <==> result.errors == []
      ensures result == Expected(request)
    {
      var valid := true;
      var errors: seq<ValidationError> := [];
      var accountRequest := Subscript(request, "account_request");
      if accountRequest.Raised? {
        return ValidationResult(false, [ErrorDuringValidation(accountRequest.exc)]);
      }
      var a := accountRequest.value;
      var ctParams := Subscript(a, "control_tower_parameters");
      if ctParams.Raised? {
        return ValidationResult(false, [ErrorDuringValidation(ctParams.exc)]);
      }
      var c := ctParams.value;
      assert ExpectedErrors(request) == Collect([], Checks(a, c));
      valid, errors := RunChecks(a, c);
      return ValidationResult(valid, errors);
    }

    /** The checks inside the `try` once both sections were found: each one
        that fails clears `valid` and appends its error; an exception
        appends "Error during validation" and ends them. */
    method RunChecks(a: Json, c: Json) returns (valid: bool, errors: seq<ValidationError>)
      ensures valid <==> errors == []
      ensures errors == Collect([], Checks(a, c))
    {
      valid := true;
      errors := [];
      ghost var rest := Checks(a, c);
      var raised: bool;

      var emailPassed := EmailCheck(c);
      assert rest == [(emailPassed, InvalidOrDuplicateEmail)] + rest[1..];
      CollectCons(errors, (emailPassed, InvalidOrDuplicateEmail), rest[1..]);
      rest := rest[1..];
      valid, errors, raised := Record(valid, errors, emailPassed, InvalidOrDuplicateEmail);
      if raised {
        return;
      }

      var namePassed := NameCheck(c);
      assert rest == [(namePassed, InvalidAccountNameFormat)] + rest[1..];
      CollectCons(errors, (namePassed, InvalidAccountNameFormat), rest[1..]);
      rest := rest[1..];
      valid, errors, raised := Record(valid, errors, namePassed, InvalidAccountNameFormat);
      if raised {
        return;
      }

      var ouPassed := OuCheck(c);
      assert rest == [(ouPassed, InvalidManagedOu)] + rest[1..];
      CollectCons(errors, (ouPassed, InvalidManagedOu), rest[1..]);
      rest := rest[1..];
      valid, errors, raised := Record(valid, errors, ouPassed, InvalidManagedOu);
      if raised {
        return;
      }

      var fieldsPassed := CustomFieldsCheck(a);
      assert rest == [(fieldsPassed, MissingCustomFields)] + rest[1..];
      CollectCons(errors, (fieldsPassed, MissingCustomFields), rest[1..]);
      rest := rest[1..];
      valid, errors, raised := Record(valid, errors, fieldsPassed, MissingCustomFields);
      if raised {
        return;
      }

      var tagsPassed := TagsCheck(a);
      assert rest == [(tagsPassed, MissingAccountTags)] + rest[1..];
      CollectCons(errors, (tagsPassed, MissingAccountTags), rest[1..]);
      rest := rest[1..];
      valid, errors, raised := Record(valid, errors, tagsPassed, MissingAccountTags);
      if raised {
        return;
      }
      assert rest == [];
    }

    /** `validate_bulk_requests`: one result per request, in input order
        (the thread pool's `map` keeps the order), then a pass that counts
        the valid and invalid ones and collects the results. */
    method ValidateBulkRequests(requests: seq<Json>) returns (summary: BulkSummary)
      ensures summary.totalRequests == |requests|
      ensures |summary.validationResults| == |requests|
      ensures forall i :: 0 <= i < |requests| ==> summary.validationResults[i] == Expected(requests[i])
      ensures summary.validRequests == CountValid(summary.validationResults)
      ensures summary.invalidRequests == CountInvalid(summary.validationResults)
      ensures summary.validRequests + summary.invalidRequests == summary.totalRequests
    {
      ghost var expected := seq(|requests|, j requires 0 <= j < |requests| => Expected(requests[j]));
      var mapped: seq<ValidationResult> := [];
      var i := 0;
      while i < |requests|
        invariant 0 <= i <= |requests|
        invariant mapped == expected[..i]
      {
        var r := ValidateAccountRequest(requests[i]);
        assert expected[..i + 1] == expected[..i] + [r];
        mapped := mapped + [r];
        i := i + 1;
      }
      assert mapped == expected;
      var valid, invalid, results := Tally(mapped);
      summary := BulkSummary(|requests|, valid, invalid, results);
    }

    /** The counting loop of `validate_bulk_requests`: each result bumps
        `valid_requests` or `invalid_requests` and is appended, in order. */
    static method Tally(mapped: seq<ValidationResult>)
      returns (valid: nat, invalid: nat, results: seq<ValidationResult>)
      ensures results == mapped
      ensures valid == CountValid(results) && invalid == CountInvalid(results)
      ensures valid + invalid == |results|
    {
      valid, invalid := 0, 0;
      results := [];
      for k := 0 to |mapped|
        invariant results == mapped[..k]
        invariant valid == CountValid(results) && invalid == CountInvalid(results)
      {
        assert (results + [mapped[k]])[..|results|] == results;
        if mapped[k].valid {
          valid := valid + 1;
        } else {
          invalid := invalid + 1;
        }
        assert mapped[..k + 1] == mapped[..k] + [mapped[k]];
        results := results + [mapped[k]];
      }
      assert results == mapped;
      CountsPartition(results);
    }

    /** The value of a control-tower parameter, `''` when absent. */
    function FieldValue(c: Json, key: string): Json
      requires c.JObject?
    {
      Lookup(c.entries, key).GetOr(JString(""))
    }

    /** A section of the account request, `{}` when absent. */
    function Section(a: Json, key: string): Json
      requires a.JObject?
    {
      Lookup(a.entries, key).GetOr(JObject([]))
    }

    /** Every check passes, read field by field: both sections are dicts,
        the address is well formed and new, the name well formed, the OU
        one of the snapshot's, and both sections hold their required keys. */
    ghost predicate Acceptable(request: Json) {
      && SingleRequestValidation.ParametersOf(request).Some?
      && var a := SingleRequestValidation.AccountRequestOf(request).value;
      && var c := SingleRequestValidation.ParametersOf(request).value;
      && c.JObject?
      && FieldValue(c, "AccountEmail").JString?
      && Accepts(EmailAddress, FieldValue(c, "AccountEmail").s)
      && FieldValue(c, "AccountEmail").s !in existingAccounts
      && FieldValue(c, "AccountName").JString?
      && Accepts(AccountName, FieldValue(c, "AccountName").s)
      && ValidateOu(FieldValue(c, "ManagedOrganizationalUnit"))
      && SingleRequestValidation.HoldsAll(Section(a, "custom_fields"), RequiredCustomFields)
      && SingleRequestValidation.HoldsAll(Section(a, "account_tags"), RequiredTags)
    }

    /** The errors appear in the order the checks run (e-mail, name, OU,
        custom fields, tags), each check adds at most one, and an exception
        can only be the last entry. */
    lemma ErrorsOrdered(request: Json)
      ensures StrictlyRanked(ExpectedErrors(request))
      ensures forall i :: 0 <= i < |ExpectedErrors(request)| - 1 ==>
                !ExpectedErrors(request)[i].ErrorDuringValidation?
    {
      match Subscript(request, "account_request")
      case Raised(_) =>
      case Ok(a) =>
        match Subscript(a, "control_tower_parameters")
        case Raised(_) =>
        case Ok(c) =>
          LabelledRanked(EmailCheck(c), NameCheck(c), OuCheck(c), CustomFieldsCheck(a), TagsCheck(a));
    }

    /** A request without `account_request`, or whose account request lacks
        `control_tower_parameters`, or that is not a dict at all, gets
        exactly one entry: the exception, and nothing propagates. */
    lemma MissingStructureOneError(request: Json)
      ensures request.JObject? && !HasKey(request.entries, "account_request") ==>
                ExpectedErrors(request) == [ErrorDuringValidation(KeyError("account_request"))]
      ensures SingleRequestValidation.AccountRequestOf(request).Some? &&
              SingleRequestValidation.AccountRequestOf(request).value.JObject? &&
              SingleRequestValidation.ParametersOf(request).None? ==>
                ExpectedErrors(request) ==
                [ErrorDuringValidation(KeyError("control_tower_parameters"))]
      ensures !request.JObject? ==> ExpectedErrors(request) == [ErrorDuringValidation(TypeError)]
    {
    }

    /** The e-mail error is the first entry exactly when the address is a
        string that is malformed or already taken (a missing address reads
        as `''`); an address that is not a string ends the checks with an
        exception. */
    lemma EmailErrorIff(request: Json)
      requires SingleRequestValidation.ParametersOf(request).Some?
      requires SingleRequestValidation.ParametersOf(request).value.JObject?
      ensures var c := SingleRequestValidation.ParametersOf(request).value;
              var email := FieldValue(c, "AccountEmail");
              && (ExpectedErrors(request) != [] && ExpectedErrors(request)[0] == InvalidOrDuplicateEmail <==>
                    email.JString? && (!Accepts(EmailAddress, email.s) || email.s in existingAccounts))
              && (!email.JString? ==> ExpectedErrors(request) == [ErrorDuringValidation(TypeError)])
    {
      var a := SingleRequestValidation.AccountRequestOf(request).value;
      var c := SingleRequestValidation.ParametersOf(request).value;
      ExpectedOnParameters(request);
      LabelledEmailFirst(EmailCheck(c), NameCheck(c), OuCheck(c), CustomFieldsCheck(a), TagsCheck(a));
      assert EmailCheck(c) == ValidateEmail(FieldValue(c, "AccountEmail"));
      ValidateEmailIff(FieldValue(c, "AccountEmail"));
    }

    /** `valid` holds exactly when every check passes, read field by field. */
    lemma ValidIff(request: Json)
      ensures ExpectedErrors(request) == [] <==> Acceptable(request)
    {
      if SingleRequestValidation.ParametersOf(request).Some? {
        var a := SingleRequestValidation.AccountRequestOf(request).value;
        var c := SingleRequestValidation.ParametersOf(request).value;
        ExpectedOnParameters(request);
        LabelledEmptyIff(EmailCheck(c), NameCheck(c), OuCheck(c), CustomFieldsCheck(a), TagsCheck(a));
        if c.JObject? {
          ChecksOnDicts(a, c);
        } else {
          assert EmailCheck(c).Raised?;
        }
      }
    }

    /** On a parameters dict `c` (and an account request `a`, a dict as
        well), each check passes exactly when its field does. */
    lemma ChecksOnDicts(a: Json, c: Json)
      requires a.JObject? && c.JObject?
      ensures EmailCheck(c) == Ok(true) <==>
                FieldValue(c, "AccountEmail").JString? &&
                Accepts(EmailAddress, FieldValue(c, "AccountEmail").s) &&
                FieldValue(c, "AccountEmail").s !in existingAccounts
      ensures NameCheck(c) == Ok(true) <==>
                FieldValue(c, "AccountName").JString? && Accepts(AccountName, FieldValue(c, "AccountName").s)
      ensures OuCheck(c) == Ok(ValidateOu(FieldValue(c, "ManagedOrganizationalUnit")))
      ensures CustomFieldsCheck(a) == Ok(true) <==>
                SingleRequestValidation.HoldsAll(Section(a, "custom_fields"), RequiredCustomFields)
      ensures TagsCheck(a) == Ok(true) <==>
                SingleRequestValidation.HoldsAll(Section(a, "account_tags"), RequiredTags)
    {
      assert EmailCheck(c) == ValidateEmail(FieldValue(c, "AccountEmail"));
      ValidateEmailIff(FieldValue(c, "AccountEmail"));
      assert NameCheck(c) == ValidateAccountName(FieldValue(c, "AccountName"));
      ValidateAccountNameIff(FieldValue(c, "AccountName"));
      assert CustomFieldsCheck(a) == ValidateCustomFields(Section(a, "custom_fields"));
      ValidateCustomFieldsIff(Section(a, "custom_fields"));
      assert TagsCheck(a) == ContainsAll(Section(a, "account_tags"), RequiredTags);
      ContainsAllEach(Section(a, "account_tags"), RequiredTags);
    }

    /** A request the single-request validator accepts can still be flagged
        here, but only for an address that is already taken or an OU that is
        not in the snapshot: the other checks agree. */
    lemma SingleAcceptedFlagsOnlyEmailOrOu(request: Json)
      requires SingleRequestValidation.ValidateAccountRequest(request)
      ensures forall e :: e in ExpectedErrors(request) ==>
                e == InvalidOrDuplicateEmail || e == InvalidManagedOu
    {
      assert SingleRequestValidation.GuardHolds(request, SingleRequestValidation.EmailFormat);
      assert SingleRequestValidation.GuardHolds(request, SingleRequestValidation.AccountNameFormat);
      assert SingleRequestValidation.GuardHolds(request, SingleRequestValidation.CustomFieldsComplete);
      assert SingleRequestValidation.GuardHolds(request, SingleRequestValidation.AccountTagsComplete);
      FormatGuardsPassChecks(request);
      SectionGuardsPassChecks(request);
      ExpectedOnParameters(request);
      var a := SingleRequestValidation.AccountRequestOf(request).value;
      var c := SingleRequestValidation.ParametersOf(request).value;
      LabelledOnlyEmailOrOu(EmailCheck(c), NameCheck(c), OuCheck(c), CustomFieldsCheck(a), TagsCheck(a));
    }

    /** The single-request guards on the e-mail and name formats make the
        name check here pass and leave the e-mail and OU checks free of
        exceptions. */
    lemma FormatGuardsPassChecks(request: Json)
      requires SingleRequestValidation.GuardHolds(request, SingleRequestValidation.EmailFormat)
      requires SingleRequestValidation.GuardHolds(request, SingleRequestValidation.AccountNameFormat)
      ensures SingleRequestValidation.ParametersOf(request).Some?
      ensures var c := SingleRequestValidation.ParametersOf(request).value;
              EmailCheck(c).Ok? && NameCheck(c) == Ok(true) && OuCheck(c).Ok?
    {
      var c := SingleRequestValidation.ParametersOf(request).value;
      assert EmailCheck(c) == ValidateEmail(FieldValue(c, "AccountEmail"));
      ValidateEmailIff(FieldValue(c, "AccountEmail"));
      assert NameCheck(c) == ValidateAccountName(FieldValue(c, "AccountName"));
      ValidateAccountNameIff(FieldValue(c, "AccountName"));
    }

    /** The single-request guards on both sections make the custom-field
        and tag checks here pass. */
    lemma SectionGuardsPassChecks(request: Json)
      requires SingleRequestValidation.GuardHolds(request, SingleRequestValidation.CustomFieldsComplete)
      requires SingleRequestValidation.GuardHolds(request, SingleRequestValidation.AccountTagsComplete)
      ensures SingleRequestValidation.ParametersOf(request).Some?
      ensures var a := SingleRequestValidation.AccountRequestOf(request).value;
              CustomFieldsCheck(a) == Ok(true) && TagsCheck(a) == Ok(true)
    {
      var a := SingleRequestValidation.AccountRequestOf(request).value;
      assert CustomFieldsCheck(a) == ValidateCustomFields(Section(a, "custom_fields"));
      ValidateCustomFieldsIff(Section(a, "custom_fields"));
      assert TagsCheck(a) == ContainsAll(Section(a, "account_tags"), RequiredTags);
      ContainsAllEach(Section(a, "account_tags"), RequiredTags);
    }

    /** Once both sections are found, the errors are those of the five
        checks. */
    lemma ExpectedOnParameters(request: Json)
      requires SingleRequestValidation.ParametersOf(request).Some?
      ensures var a := SingleRequestValidation.AccountRequestOf(request).value;
              var c := SingleRequestValidation.ParametersOf(request).value;
              ExpectedErrors(request) ==
              Collect([], Labelled(EmailCheck(c), NameCheck(c), OuCheck(c), CustomFieldsCheck(a), TagsCheck(a)))
    {
    }

    /** A request with no errors here passes the single-request validator
        exactly when its OU id also has the form of an OU path: that is the
        one check this validator does not make. */
    lemma BulkValidSingleNeedsOnlyOuFormat(request: Json)
      requires ExpectedErrors(request) == []
      ensures SingleRequestValidation.ValidateAccountRequest(request) <==>
                SingleRequestValidation.GuardHolds(request, SingleRequestValidation.OuPathFormat)
    {
      ValidIff(request);
      var a := SingleRequestValidation.AccountRequestOf(request).value;
      SectionPresent(a, "custom_fields", RequiredCustomFields);
      SectionPresent(a, "account_tags", RequiredTags);
      if SingleRequestValidation.GuardHolds(request, SingleRequestValidation.OuPathFormat) {
        forall g: SingleRequestValidation.Guard
          ensures SingleRequestValidation.GuardHolds(request, g)
        {
        }
      }
    }

    /** A section that holds all of a non-empty key list is present: the
        `{}` that stands in for a missing one holds no key. */
    lemma SectionPresent(a: Json, key: string, required: seq<string>)
      requires a.JObject? && required != []
      requires SingleRequestValidation.HoldsAll(Section(a, key), required)
      ensures SingleRequestValidation.Complete(a, key, required)
    {
      assert Contains(Section(a, key), required[0]) == Ok(true);
    }
  }

  // ---------------------------------------------------------------------
  // The error list, whatever the checks.

  /** The run ends with no errors exactly when it starts with none and every
      check passes. */
  lemma {:induction false} CollectEmptyIff(errors: seq<ValidationError>,
                                          checks: seq<(Outcome<bool>, ValidationError)>)
    ensures Collect(errors, checks) == [] <==>
              errors == [] && forall i :: 0 <= i < |checks| ==> checks[i].0 == Ok(true)
    decreases checks
  {
    if checks != [] {
      assert checks[0] == checks[0];
      match checks[0].0
      case Raised(_) =>
      case Ok(passed) =>
        var next := errors + (if passed then [] else [checks[0].1]);
        CollectEmptyIff(next, checks[1..]);
        assert forall i :: 0 < i < |checks| ==> checks[i] == checks[1..][i - 1];
    }
  }

  /** `check` failed with `e` as its error, or raised with `e` the exception
      entry. */
  predicate Produces(check: (Outcome<bool>, ValidationError), e: ValidationError) {
    check == (Ok(false), e) || (check.0.Raised? && e == ErrorDuringValidation(check.0.exc))
  }

  /** The run only appends: the errors so far stay a prefix. */
  lemma {:induction false} CollectExtends(errors: seq<ValidationError>,
                                         checks: seq<(Outcome<bool>, ValidationError)>)
    ensures errors <= Collect(errors, checks)
    decreases checks
  {
    if checks != [] && checks[0].0.Ok? {
      var next := errors + (if checks[0].0.value then [] else [checks[0].1]);
      CollectExtends(next, checks[1..]);
    }
  }

  /** Every entry the run adds is the error of a check that failed or the
      exception of a check that raised. */
  lemma {:induction false} CollectSources(errors: seq<ValidationError>,
                                         checks: seq<(Outcome<bool>, ValidationError)>)
    ensures forall e :: e in Collect(errors, checks) ==>
              e in errors || exists i :: 0 <= i < |checks| && Produces(checks[i], e)
    decreases checks
  {
    if checks != [] && checks[0].0.Ok? {
      var next := errors + (if checks[0].0.value then [] else [checks[0].1]);
      CollectSources(next, checks[1..]);
      forall e | e in Collect(errors, checks)
        ensures e in errors || exists i :: 0 <= i < |checks| && Produces(checks[i], e)
      {
        if e !in errors && e !in next {
          var i :| 0 <= i < |checks[1..]| && Produces(checks[1..][i], e);
          assert Produces(checks[i + 1], e);
        } else if e !in errors {
          assert Produces(checks[0], e);
        }
      }
    } else if checks != [] {
      assert Produces(checks[0], ErrorDuringValidation(checks[0].0.exc));
    }
  }

  /** With the checks' errors in strictly increasing rank, none of them an
      exception, and the errors so far ranked below all of them, the run
      leaves the list strictly ranked. */
  lemma {:induction false} CollectRanked(errors: seq<ValidationError>,
                                        checks: seq<(Outcome<bool>, ValidationError)>)
    requires StrictlyRanked(errors)
    requires forall i, j :: 0 <= i < j < |checks| ==> checks[i].1.Rank() < checks[j].1.Rank()
    requires forall i :: 0 <= i < |checks| ==> checks[i].1.Rank() < 5
    requires forall e, i :: e in errors && 0 <= i < |checks| ==> e.Rank() < checks[i].1.Rank()
    ensures StrictlyRanked(Collect(errors, checks))
    decreases checks
  {
    if checks != [] && checks[0].0.Ok? {
      var next := errors + (if checks[0].0.value then [] else [checks[0].1]);
      forall e, i | e in next && 0 <= i < |checks[1..]|
        ensures e.Rank() < checks[1..][i].1.Rank()
      {
        assert checks[1..][i] == checks[i + 1];
      }
      CollectRanked(next, checks[1..]);
    } else if checks != [] {
      forall i | 0 <= i < |errors|
        ensures errors[i].Rank() < 5
      {
        assert errors[i] in errors;
      }
    }
  }

  /** `valid_requests` and `invalid_requests` add up to the number of
      results. */
  lemma {:induction false} CountsPartition(results: seq<ValidationResult>)
    ensures CountValid(results) + CountInvalid(results) == |results|
  {
    if results != [] {
      CountsPartition(results[..|results| - 1]);
    }
  }

  /** No result is invalid exactly when every result is valid. */
  lemma {:induction false} NoInvalidIff(results: seq<ValidationResult>)
    ensures CountInvalid(results) == 0 <==> forall i :: 0 <= i < |results| ==> results[i].valid
  {
    if results != [] {
      var front := results[..|results| - 1];
      NoInvalidIff(front);
      assert forall i :: 0 <= i < |front| ==> front[i] == results[i];
    }
  }

  /** Whatever the five outcomes, the errors come out strictly ranked, so
      an exception can only be the last entry. */
  lemma LabelledRanked(email: Outcome<bool>, name: Outcome<bool>, ou: Outcome<bool>,
                       fields: Outcome<bool>, tags: Outcome<bool>)
    ensures var errors := Collect([], Labelled(email, name, ou, fields, tags));
            && StrictlyRanked(errors)
            && forall i :: 0 <= i < |errors| - 1 ==> !errors[i].ErrorDuringValidation?
  {
    var checks := Labelled(email, name, ou, fields, tags);
    var errors := Collect([], checks);
    CollectRanked([], checks);
    forall i | 0 <= i < |errors| - 1
      ensures !errors[i].ErrorDuringValidation?
    {
      assert errors[i].Rank() < errors[|errors| - 1].Rank();
    }
  }

  /** Whatever the outcomes, the list is empty exactly when all five pass. */
  lemma LabelledEmptyIff(email: Outcome<bool>, name: Outcome<bool>, ou: Outcome<bool>,
                         fields: Outcome<bool>, tags: Outcome<bool>)
    ensures Collect([], Labelled(email, name, ou, fields, tags)) == [] <==>
              email == Ok(true) && name == Ok(true) && ou == Ok(true) &&
              fields == Ok(true) && tags == Ok(true)
  {
    var checks := Labelled(email, name, ou, fields, tags);
    CollectEmptyIff([], checks);
    assert (forall i :: 0 <= i < |checks| ==> checks[i].0 == Ok(true)) <==>
           checks[0].0 == Ok(true) && checks[1].0 == Ok(true) && checks[2].0 == Ok(true) &&
           checks[3].0 == Ok(true) && checks[4].0 == Ok(true);
  }

  /** The e-mail error comes first exactly when the e-mail check fails;
      when it raises, its exception is the only entry. */
  lemma LabelledEmailFirst(email: Outcome<bool>, name: Outcome<bool>, ou: Outcome<bool>,
                           fields: Outcome<bool>, tags: Outcome<bool>)
    ensures var errors := Collect([], Labelled(email, name, ou, fields, tags));
            && (errors != [] && errors[0] == InvalidOrDuplicateEmail <==> email == Ok(false))
            && (email.Raised? ==> errors == [ErrorDuringValidation(email.exc)])
  {
    var checks := Labelled(email, name, ou, fields, tags);
    var errors := Collect([], checks);
    CollectCons([], checks[0], checks[1..]);
    assert checks == [checks[0]] + checks[1..];
    var none: seq<ValidationError> := [];
    if email == Ok(false) {
      assert none + [InvalidOrDuplicateEmail] == [InvalidOrDuplicateEmail];
      CollectExtends([InvalidOrDuplicateEmail], checks[1..]);
    } else if email == Ok(true) {
      var rest := checks[1..];
      assert none + [] == none;
      assert errors == Collect([], rest);
      CollectSources([], rest);
      if errors != [] {
        assert errors[0] in Collect([], rest);
        var i :| 0 <= i < |rest| && Produces(rest[i], errors[0]);
        assert rest[i] == checks[i + 1];
        assert errors[0] != InvalidOrDuplicateEmail;
      }
    }
  }

  /** Every entry names a check that failed, or is the exception of one
      that raised. */
  lemma LabelledSources(email: Outcome<bool>, name: Outcome<bool>, ou: Outcome<bool>,
                        fields: Outcome<bool>, tags: Outcome<bool>)
    ensures forall e :: e in Collect([], Labelled(email, name, ou, fields, tags)) ==>
              || (e == InvalidOrDuplicateEmail && email == Ok(false))
              || (e == InvalidAccountNameFormat && name == Ok(false))
              || (e == InvalidManagedOu && ou == Ok(false))
              || (e == MissingCustomFields && fields == Ok(false))
              || (e == MissingAccountTags && tags == Ok(false))
              || (e.ErrorDuringValidation? && Raised(e.exc) in [email, name, ou, fields, tags])
  {
    var checks := Labelled(email, name, ou, fields, tags);
    CollectSources([], checks);
    forall e | e in Collect([], checks)
      ensures || (e == InvalidOrDuplicateEmail && email == Ok(false))
              || (e == InvalidAccountNameFormat && name == Ok(false))
              || (e == InvalidManagedOu && ou == Ok(false))
              || (e == MissingCustomFields && fields == Ok(false))
              || (e == MissingAccountTags && tags == Ok(false))
              || (e.ErrorDuringValidation? && Raised(e.exc) in [email, name, ou, fields, tags])
    {
      var i :| 0 <= i < |checks| && Produces(checks[i], e);
    }
  }

  /** When the name and both section checks pass and the e-mail and OU
      checks do not raise, only the e-mail and OU errors can appear. */
  lemma LabelledOnlyEmailOrOu(email: Outcome<bool>, name: Outcome<bool>, ou: Outcome<bool>,
                              fields: Outcome<bool>, tags: Outcome<bool>)
    requires email.Ok? && name == Ok(true) && ou.Ok? && fields == Ok(true) && tags == Ok(true)
    ensures forall e :: e in Collect([], Labelled(email, name, ou, fields, tags)) ==>
              e == InvalidOrDuplicateEmail || e == InvalidManagedOu
  {
    LabelledSources(email, name, ou, fields, tags);
  }
}
