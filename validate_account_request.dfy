/** The single-request validator: a chain of guards over one account
    request, each of which prints a message and returns False when it fails,
    with every exception caught and turned into False. */
module SingleRequestValidation {
  import opened Json
  import opened FieldValidators

  /** The guards, in the order the validator tries them. */
  datatype Guard =
    | HasAccountRequest
    | HasControlTowerParameters
    | EmailFormat
    | AccountNameFormat
    | OuPathFormat
    | HasCustomFields
    | CustomFieldsComplete
    | HasAccountTags
    | AccountTagsComplete
  {
    function Rank(): nat {
      match this
      case HasAccountRequest => 0
      case HasControlTowerParameters => 1
      case EmailFormat => 2
      case AccountNameFormat => 3
      case OuPathFormat => 4
      case HasCustomFields => 5
      case CustomFieldsComplete => 6
      case HasAccountTags => 7
      case AccountTagsComplete => 8
    }

    /** The line printed when this guard fails. */
    function Message(): string {
      match this
      case HasAccountRequest => "Error: Missing 'account_request' in request"
      case HasControlTowerParameters => "Error: Missing 'control_tower_parameters' in account request"
      case EmailFormat => "Error: Invalid AccountEmail format"
      case AccountNameFormat => "Error: Invalid AccountName format"
      case OuPathFormat => "Error: Invalid ManagedOrganizationalUnit format"
      case HasCustomFields => "Error: Missing 'custom_fields' in account request"
      case CustomFieldsComplete => "Error: Missing required custom fields"
      case HasAccountTags => "Error: Missing 'account_tags' in account request"
      case AccountTagsComplete => "Error: Missing required account tags"
    }
  }

  /** Why a request was rejected: a guard that failed, or an exception the
      validator caught (it prints "Error during validation: ..."). */
  datatype Rejection = Failed(guard: Guard) | ErrorDuringValidation(exc: PyException)

  /** The format check of one control-tower parameter:
      `validate_x(ct_params.get(key, ''))`. */
  function CheckFormat(ctParams: Json, key: string, p: Pattern, guard: Guard): Option<Rejection> {
    match Get(ctParams, key, JString(""))
    case Raised(e) => Some(ErrorDuringValidation(e))
    case Ok(value) =>
      match ReMatch(p, value)
      case Raised(e) => Some(ErrorDuringValidation(e))
      case Ok(ok) => if ok then None else Some(Failed(guard))
  }

  /** `if key not in account_request: ...` followed by
      `all(k in account_request[key] for k in required)`. */
  function CheckKeys(accountRequest: Json, key: string, present: Guard,
                     required: seq<string>, complete: Guard): Option<Rejection>
  {
    match Contains(accountRequest, key)
    case Raised(e) => Some(ErrorDuringValidation(e))
    case Ok(found) =>
      if !found then Some(Failed(present))
      else
        match Subscript(accountRequest, key)
        case Raised(e) => Some(ErrorDuringValidation(e))
        case Ok(container) =>
          match ContainsAll(container, required)
          case Raised(e) => Some(ErrorDuringValidation(e))
          case Ok(all) => if all then None else Some(Failed(complete))
  }

  /** The guards after `control_tower_parameters` has been found. */
  function CheckParameters(accountRequest: Json, ctParams: Json): Option<Rejection> {
    var email := CheckFormat(ctParams, "AccountEmail", EmailAddress, EmailFormat);
    if email.Some? then email
    else
      var name := CheckFormat(ctParams, "AccountName", AccountName, AccountNameFormat);
      if name.Some? then name
      else
        var ou := CheckFormat(ctParams, "ManagedOrganizationalUnit", OuPath, OuPathFormat);
        if ou.Some? then ou
        else
          var custom := CheckKeys(accountRequest, "custom_fields", HasCustomFields,
                                  RequiredCustomFields, CustomFieldsComplete);
          if custom.Some? then custom
          else CheckKeys(accountRequest, "account_tags", HasAccountTags,
                         RequiredTags, AccountTagsComplete)
  }

  /** The whole fail-fast chain: None when the request passes, otherwise
      the first rejection (which the validator prints). */
  function Diagnose(request: Json): Option<Rejection> {
    match Contains(request, "account_request")
    case Raised(e) => Some(ErrorDuringValidation(e))
    case Ok(found) =>
      if !found then Some(Failed(HasAccountRequest))
      else
        match Subscript(request, "account_request")
        case Raised(e) => Some(ErrorDuringValidation(e))
        case Ok(accountRequest) =>
          match Contains(accountRequest, "control_tower_parameters")
          case Raised(e) => Some(ErrorDuringValidation(e))
          case Ok(found) =>
            if !found then Some(Failed(HasControlTowerParameters))
            else
              match Subscript(accountRequest, "control_tower_parameters")
              case Raised(e) => Some(ErrorDuringValidation(e))
              case Ok(ctParams) => CheckParameters(accountRequest, ctParams)
  }

  // ---------------------------------------------------------------------
  // The guards stated declaratively, each on its own.

  /** The value under `key` when `j` is a dict holding it. */
  function Member(j: Json, key: string): Option<Json> {
    if j.JObject? then Lookup(j.entries, key) else None
  }

  function AccountRequestOf(request: Json): Option<Json> {
    Member(request, "account_request")
  }

  function ParametersOf(request: Json): Option<Json> {
    match AccountRequestOf(request)
    case None => None
    case Some(ar) => Member(ar, "control_tower_parameters")
  }

  /** The parameters are a dict whose `key` (or `''` when absent) is a string
      the pattern's `^X$` form accepts. */
  ghost predicate FieldAccepted(ctParams: Json, key: string, p: Pattern) {
    && ctParams.JObject?
    && var v := Lookup(ctParams.entries, key).GetOr(JString(""));
    && v.JString?
    && Accepts(p, v.s)
  }

  /** Every key of `keys` is `in` the container. */
  ghost predicate HoldsAll(container: Json, keys: seq<string>) {
    forall k :: k in keys ==> Contains(container, k) == Ok(true)
  }

  /** `key` is present in the account request and holds every required key. */
  ghost predicate Complete(accountRequest: Json, key: string, required: seq<string>) {
    Member(accountRequest, key).Some? && HoldsAll(Member(accountRequest, key).value, required)
  }

  /** The guards that look inside the account request `a` and its
      parameters `c` (the first two guards found them). */
  ghost predicate StageHolds(a: Json, c: Json, g: Guard) {
    match g
    case HasAccountRequest => true
    case HasControlTowerParameters => true
    case EmailFormat => FieldAccepted(c, "AccountEmail", EmailAddress)
    case AccountNameFormat => FieldAccepted(c, "AccountName", AccountName)
    case OuPathFormat => FieldAccepted(c, "ManagedOrganizationalUnit", OuPath)
    case HasCustomFields => Member(a, "custom_fields").Some?
    case CustomFieldsComplete => Complete(a, "custom_fields", RequiredCustomFields)
    case HasAccountTags => Member(a, "account_tags").Some?
    case AccountTagsComplete => Complete(a, "account_tags", RequiredTags)
  }

  /** Guard `g` holds of `request`, read on its own. */
  ghost predicate GuardHolds(request: Json, g: Guard) {
    match g
    case HasAccountRequest => AccountRequestOf(request).Some?
    case HasControlTowerParameters => ParametersOf(request).Some?
    case _ =>
      ParametersOf(request).Some? &&
      StageHolds(AccountRequestOf(request).value, ParametersOf(request).value, g)
  }

  // ---------------------------------------------------------------------
  // The validator and what it promises.

  /** `validate_account_request`: True exactly when every guard holds. It
      never raises: every exception becomes False. */
  function ValidateAccountRequest(request: Json): (valid: bool)
    ensures valid <==> forall g :: GuardHolds(request, g)
  {
    AcceptsIffAllGuards(request);
    Diagnose(request).None?
  }

  /** One format check passes exactly when its field is accepted, and when it
      rejects it names its own guard or an exception. */
  lemma CheckFormatSpec(ctParams: Json, key: string, p: Pattern, guard: Guard)
    ensures CheckFormat(ctParams, key, p, guard).None? <==> FieldAccepted(ctParams, key, p)
    ensures CheckFormat(ctParams, key, p, guard).Some? ==>
              CheckFormat(ctParams, key, p, guard).value in {Failed(guard)} ||
              CheckFormat(ctParams, key, p, guard).value.ErrorDuringValidation?
  {
    if ctParams.JObject? {
      var v := Lookup(ctParams.entries, key).GetOr(JString(""));
      assert Get(ctParams, key, JString("")) == Ok(v);
      if v.JString? {
        MatchesIff(p, v.s);
        assert ReMatch(p, v) == Ok(Matches(p, v.s));
        assert FieldAccepted(ctParams, key, p) == Matches(p, v.s);
      }
    }
  }

  /** One presence-and-completeness check of `custom_fields` or
      `account_tags`, on an account request that is a dict. */
  lemma CheckKeysSpec(accountRequest: Json, key: string, present: Guard,
                      required: seq<string>, complete: Guard)
    requires accountRequest.JObject?
    requires present != complete
    ensures var r := CheckKeys(accountRequest, key, present, required, complete);
            && (r.None? <==> Complete(accountRequest, key, required))
            && (r == Some(Failed(present)) <==> Member(accountRequest, key).None?)
            && (r == Some(Failed(complete)) ==>
                  Member(accountRequest, key).Some? && !Complete(accountRequest, key, required))
            && (r.Some? ==> r.value.ErrorDuringValidation? || r.value in {Failed(present), Failed(complete)})
  {
    var m := Member(accountRequest, key);
    if m.Some? {
      ContainsAllEach(m.value, required);
    }
  }

  /** The guards from EmailFormat on accept exactly when each holds. */
  lemma StagesAccept(a: Json, c: Json)
    requires a.JObject?
    ensures CheckParameters(a, c).None? <==>
              FieldAccepted(c, "AccountEmail", EmailAddress) && FieldAccepted(c, "AccountName", AccountName)
              && FieldAccepted(c, "ManagedOrganizationalUnit", OuPath)
              && Complete(a, "custom_fields", RequiredCustomFields) && Complete(a, "account_tags", RequiredTags)
  {
    CheckFormatSpec(c, "AccountEmail", EmailAddress, EmailFormat);
    CheckFormatSpec(c, "AccountName", AccountName, AccountNameFormat);
    CheckFormatSpec(c, "ManagedOrganizationalUnit", OuPath, OuPathFormat);
    CheckKeysSpec(a, "custom_fields", HasCustomFields, RequiredCustomFields, CustomFieldsComplete);
    CheckKeysSpec(a, "account_tags", HasAccountTags, RequiredTags, AccountTagsComplete);
  }

  /** The five checks after the parameters were found, in the order the
      validator runs them: a rejection comes from the first that rejects. */
  lemma StagesInOrder(a: Json, c: Json)
    ensures var r := CheckParameters(a, c);
            var email := CheckFormat(c, "AccountEmail", EmailAddress, EmailFormat);
            var name := CheckFormat(c, "AccountName", AccountName, AccountNameFormat);
            var ou := CheckFormat(c, "ManagedOrganizationalUnit", OuPath, OuPathFormat);
            var custom := CheckKeys(a, "custom_fields", HasCustomFields,
                                    RequiredCustomFields, CustomFieldsComplete);
            && (email.Some? ==> r == email)
            && (email.None? && name.Some? ==> r == name)
            && (email.None? && name.None? && ou.Some? ==> r == ou)
            && (email.None? && name.None? && ou.None? && custom.Some? ==> r == custom)
            && (email.None? && name.None? && ou.None? && custom.None? ==>
                  r == CheckKeys(a, "account_tags", HasAccountTags, RequiredTags, AccountTagsComplete))
  {
  }

  /** When every check after the parameters passes, every guard holds. */
  lemma AcceptedGuardsHold(request: Json)
    requires Diagnose(request).None?
    ensures forall g :: GuardHolds(request, g)
  {
    var a, c := AccountRequestOf(request).value, ParametersOf(request).value;
    assert Diagnose(request) == CheckParameters(a, c);
    StagesAccept(a, c);
    forall g ensures GuardHolds(request, g) {
    }
  }

  /** Once the parameters are found, the validator's verdict is that of the
      checks after them. */
  lemma ParametersReached(request: Json)
    requires ParametersOf(request).Some?
    ensures AccountRequestOf(request).Some? && AccountRequestOf(request).value.JObject?
    ensures Diagnose(request) ==
              CheckParameters(AccountRequestOf(request).value, ParametersOf(request).value)
  {
  }

  /** Every guard holding means each check after the parameters has what it
      looks for. */
  lemma AllGuardsStages(request: Json)
    requires forall g :: GuardHolds(request, g)
    ensures ParametersOf(request).Some?
    ensures var a, c := AccountRequestOf(request).value, ParametersOf(request).value;
            && FieldAccepted(c, "AccountEmail", EmailAddress)
            && FieldAccepted(c, "AccountName", AccountName)
            && FieldAccepted(c, "ManagedOrganizationalUnit", OuPath)
            && Complete(a, "custom_fields", RequiredCustomFields)
            && Complete(a, "account_tags", RequiredTags)
  {
    assert GuardHolds(request, EmailFormat) && GuardHolds(request, AccountNameFormat)
        && GuardHolds(request, OuPathFormat) && GuardHolds(request, CustomFieldsComplete)
        && GuardHolds(request, AccountTagsComplete);
  }

  /** When every guard holds, no check rejects. */
  lemma GuardsHoldAccepted(request: Json)
    requires forall g :: GuardHolds(request, g)
    ensures Diagnose(request).None?
  {
    AllGuardsStages(request);
    ParametersReached(request);
    StagesAccept(AccountRequestOf(request).value, ParametersOf(request).value);
  }

  /** The validator accepts exactly when every guard holds. */
  lemma AcceptsIffAllGuards(request: Json)
    ensures Diagnose(request).None? <==> forall g :: GuardHolds(request, g)
  {
    if Diagnose(request).None? {
      AcceptedGuardsHold(request);
    }
    if forall g :: GuardHolds(request, g) {
      GuardsHoldAccepted(request);
    }
  }

  /** A format check rejects only with its own guard or an exception. */
  lemma CheckFormatRejects(ctParams: Json, key: string, p: Pattern, guard: Guard)
    ensures var r := CheckFormat(ctParams, key, p, guard);
            r.Some? ==> r == Some(Failed(guard)) || r.value.ErrorDuringValidation?
  {
  }

  /** A presence-and-completeness check rejects only with its own two guards
      or an exception. */
  lemma CheckKeysRejects(accountRequest: Json, key: string, present: Guard,
                         required: seq<string>, complete: Guard)
    ensures var r := CheckKeys(accountRequest, key, present, required, complete);
            r.Some? ==> r.value.ErrorDuringValidation? || r.value in {Failed(present), Failed(complete)}
  {
  }

  /** The check that produced a guard's rejection, and the checks before it
      that passed. */
  lemma RejectionStage(a: Json, c: Json, g: Guard)
    requires CheckParameters(a, c) == Some(Failed(g))
    ensures var email := CheckFormat(c, "AccountEmail", EmailAddress, EmailFormat);
            var name := CheckFormat(c, "AccountName", AccountName, AccountNameFormat);
            var ou := CheckFormat(c, "ManagedOrganizationalUnit", OuPath, OuPathFormat);
            var custom := CheckKeys(a, "custom_fields", HasCustomFields,
                                    RequiredCustomFields, CustomFieldsComplete);
            var tags := CheckKeys(a, "account_tags", HasAccountTags, RequiredTags, AccountTagsComplete);
            && 2 <= g.Rank()
            && (g.Rank() == 2 ==> email == Some(Failed(g)))
            && (g.Rank() > 2 ==> email.None?)
            && (g.Rank() == 3 ==> name == Some(Failed(g)))
            && (g.Rank() > 3 ==> name.None?)
            && (g.Rank() == 4 ==> ou == Some(Failed(g)))
            && (g.Rank() > 4 ==> ou.None?)
            && (5 <= g.Rank() <= 6 ==> custom == Some(Failed(g)))
            && (g.Rank() > 6 ==> custom.None?)
            && (7 <= g.Rank() ==> tags == Some(Failed(g)))
  {
    StagesInOrder(a, c);
    CheckFormatRejects(c, "AccountEmail", EmailAddress, EmailFormat);
    CheckFormatRejects(c, "AccountName", AccountName, AccountNameFormat);
    CheckFormatRejects(c, "ManagedOrganizationalUnit", OuPath, OuPathFormat);
    CheckKeysRejects(a, "custom_fields", HasCustomFields, RequiredCustomFields, CustomFieldsComplete);
    CheckKeysRejects(a, "account_tags", HasAccountTags, RequiredTags, AccountTagsComplete);
  }

  /** The guard a check after the parameters rejects with does not hold. */
  lemma StageFailed(a: Json, c: Json, g: Guard)
    requires a.JObject?
    requires CheckParameters(a, c) == Some(Failed(g))
    ensures 2 <= g.Rank() && !StageHolds(a, c, g)
  {
    RejectionStage(a, c, g);
    match g {
      case EmailFormat =>
        CheckFormatSpec(c, "AccountEmail", EmailAddress, EmailFormat);
      case AccountNameFormat =>
        CheckFormatSpec(c, "AccountName", AccountName, AccountNameFormat);
      case OuPathFormat =>
        CheckFormatSpec(c, "ManagedOrganizationalUnit", OuPath, OuPathFormat);
      case HasCustomFields =>
        CheckKeysSpec(a, "custom_fields", HasCustomFields, RequiredCustomFields, CustomFieldsComplete);
      case CustomFieldsComplete =>
        CheckKeysSpec(a, "custom_fields", HasCustomFields, RequiredCustomFields, CustomFieldsComplete);
      case HasAccountTags =>
        CheckKeysSpec(a, "account_tags", HasAccountTags, RequiredTags, AccountTagsComplete);
      case AccountTagsComplete =>
        CheckKeysSpec(a, "account_tags", HasAccountTags, RequiredTags, AccountTagsComplete);
    }
  }

  /** Every check before the one that rejected holds. */
  lemma StagesBeforeHold(a: Json, c: Json, g: Guard)
    requires a.JObject?
    requires CheckParameters(a, c) == Some(Failed(g))
    ensures forall h: Guard :: h.Rank() < g.Rank() ==> StageHolds(a, c, h)
  {
    RejectionStage(a, c, g);
    forall h: Guard | h.Rank() < g.Rank()
      ensures StageHolds(a, c, h)
    {
      match h {
        case EmailFormat =>
          CheckFormatSpec(c, "AccountEmail", EmailAddress, EmailFormat);
        case AccountNameFormat =>
          CheckFormatSpec(c, "AccountName", AccountName, AccountNameFormat);
        case OuPathFormat =>
          CheckFormatSpec(c, "ManagedOrganizationalUnit", OuPath, OuPathFormat);
        case HasCustomFields =>
          CheckKeysSpec(a, "custom_fields", HasCustomFields, RequiredCustomFields, CustomFieldsComplete);
        case CustomFieldsComplete =>
          CheckKeysSpec(a, "custom_fields", HasCustomFields, RequiredCustomFields, CustomFieldsComplete);
        case HasAccountTags =>
          CheckKeysSpec(a, "account_tags", HasAccountTags, RequiredTags, AccountTagsComplete);
        case AccountTagsComplete =>
        case _ =>
      }
    }
  }

  /** A guard the validator reports is the first one, in the fixed order,
      that does not hold. */
  lemma FirstFailedGuard(request: Json)
    requires Diagnose(request).Some? && Diagnose(request).value.Failed?
    ensures var g := Diagnose(request).value.guard;
            && !GuardHolds(request, g)
            && forall h: Guard :: h.Rank() < g.Rank() ==> GuardHolds(request, h)
  {
    var g := Diagnose(request).value.guard;
    var ar := AccountRequestOf(request);
    if ar.Some? && ar.value.JObject? && ParametersOf(request).Some? {
      var a, c := ar.value, ParametersOf(request).value;
      assert Diagnose(request) == CheckParameters(a, c);
      StageFailed(a, c, g);
      StagesBeforeHold(a, c, g);
      forall h: Guard | h.Rank() < g.Rank()
        ensures GuardHolds(request, h)
      {
        assert GuardHolds(request, h) == StageHolds(a, c, h);
      }
    }
  }

  /** A request that is a dict but lacks the account request, or whose
      account request is a dict without parameters, is rejected at that
      key's guard. */
  lemma MissingKeysRejected(request: Json)
    requires request.JObject?
    ensures AccountRequestOf(request).None? ==>
              Diagnose(request) == Some(Failed(HasAccountRequest))
    ensures AccountRequestOf(request).Some? && AccountRequestOf(request).value.JObject? &&
            ParametersOf(request).None? ==>
              Diagnose(request) == Some(Failed(HasControlTowerParameters))
  {
  }

  /** With valid parameters, an account request without `custom_fields`,
      or with complete custom fields but without `account_tags`, is rejected
      at that key's guard. */
  lemma MissingSectionRejected(a: Json, c: Json)
    requires a.JObject?
    requires FieldAccepted(c, "AccountEmail", EmailAddress)
    requires FieldAccepted(c, "AccountName", AccountName)
    requires FieldAccepted(c, "ManagedOrganizationalUnit", OuPath)
    ensures Member(a, "custom_fields").None? ==>
              CheckParameters(a, c) == Some(Failed(HasCustomFields))
    ensures Complete(a, "custom_fields", RequiredCustomFields) && Member(a, "account_tags").None? ==>
              CheckParameters(a, c) == Some(Failed(HasAccountTags))
  {
    StagesInOrder(a, c);
    CheckFormatSpec(c, "AccountEmail", EmailAddress, EmailFormat);
    CheckFormatSpec(c, "AccountName", AccountName, AccountNameFormat);
    CheckFormatSpec(c, "ManagedOrganizationalUnit", OuPath, OuPathFormat);
    CheckKeysSpec(a, "custom_fields", HasCustomFields, RequiredCustomFields, CustomFieldsComplete);
    CheckKeysSpec(a, "account_tags", HasAccountTags, RequiredTags, AccountTagsComplete);
  }

  /** A missing AccountEmail, AccountName or ManagedOrganizationalUnit is read
      as `''` and fails its format check. */
  lemma MissingFieldFailsFormat(ctParams: Json, key: string, p: Pattern, guard: Guard)
    requires ctParams.JObject? && Member(ctParams, key).None?
    ensures CheckFormat(ctParams, key, p, guard) == Some(Failed(guard))
  {
    EmptyNeverMatches(p);
  }
}
