/** Terminal verification of submitted windows, and the narrow exception that
    recovery mode makes for runs carrying only one benign warning code. */
module RecoveryWarnings {
  import opened Base
  import opened Json
  import opened SyncPrimitives

  // ----- the acceptance sets, as predicates

  predicate BenignEntry(entry: Json, legacy: Json) {
    && entry.Object?
    && Field(entry.fields, "code") == Some(String(RECOVERY_ELIGIBLE_WARNING_CODE))
    && StrictEquals(Field(entry.fields, "detail"), legacy)
  }

  /** Complete structured classification, at least one warning, every warning of
      the benign code and aligned, index by index, with the legacy details. */
  predicate BenignWarnings(run: SyncRun) {
    && run.structuredWarnings.Some?
    && run.structuredWarnings.value.Object?
    && var fields := run.structuredWarnings.value.fields;
    && Field(fields, "truncatedCount") == Some(Number(0.0))
    && var warnings := Field(fields, "warnings");
    && warnings.Some? && warnings.value.Array? && warnings.value.items != []
    && run.warningDetails.Array?
    && run.warningCount == |warnings.value.items| == |run.warningDetails.items|
    && forall i :: 0 <= i < |warnings.value.items| ==>
         BenignEntry(warnings.value.items[i], run.warningDetails.items[i])
  }

  predicate KnownEmpty(structured: Option<Json>) {
    && structured.Some?
    && structured.value.Object?
    && Field(structured.value.fields, "truncatedCount") == Some(Number(0.0))
    && Field(structured.value.fields, "warnings") == Some(Array([]))
  }

  predicate ProvenWarningFree(run: SyncRun) {
    run.warningCount == 0 && EmptyList(run.warningDetails) && KnownEmpty(run.structuredWarnings)
  }

  predicate RecoveryAcceptable(run: SyncRun, want: Expectation) {
    TerminalFields(run, want) && (ProvenWarningFree(run) || BenignWarnings(run))
  }

  /** What a source run must show before its window may be resubmitted. */
  predicate EligibleSource(run: Option<SyncRun>, id: string, want: Expectation) {
    && run.Some?
    && run.value.id == id
    && run.value.trigger == "MANUAL"
    && run.value.status == "COMPLETED"
    && run.value.walletId == Some(want.walletId)
    && run.value.chainId == want.chainId
    && TransfersOnly(run.value.sourceFamilies)
    && run.value.startBlock == Some(want.request.startBlock)
    && run.value.endBlock == Some(want.request.endBlock)
    && BenignWarnings(run.value)
  }

  // ----- the verifiers

  /** The outcome of the structural rules, with the first rule that fails. */
  datatype WarningGate =
    | Eligible
    | Unclassified
    | MalformedShape
    | Truncated
    | CountMismatch
    | NoWarnings
    | LegacyMisaligned
    | WrongCodeAt(index: nat)
    | WrongDetailAt(index: nat)

  predicate HasCode(entry: Json) {
    entry.Object? && Field(entry.fields, "code") == Some(String(RECOVERY_ELIGIBLE_WARNING_CODE))
  }

  /** The list of structured warnings, when the classification is well formed. */
  function WarningList(run: SyncRun): Option<seq<Json>> {
    if run.structuredWarnings.Some? && run.structuredWarnings.value.Object? then
      match Field(run.structuredWarnings.value.fields, "warnings")
      case Some(Array(items)) => Some(items)
      case _ => None
    else None
  }

  /** The classification has the two fields of a well-formed one. */
  predicate WellShaped(run: SyncRun) {
    && WarningList(run).Some?
    && var truncated := Field(run.structuredWarnings.value.fields, "truncatedCount");
       truncated.Some? && truncated.value.Number?
  }

  /** Nothing is missing from the classification, and it counts every warning. */
  predicate Complete(run: SyncRun) {
    && WellShaped(run) && Field(run.structuredWarnings.value.fields, "truncatedCount") == Some(Number(0.0))
    && run.warningCount == |WarningList(run).value|
  }

  predicate Aligned(run: SyncRun) {
    && Complete(run) && WarningList(run).value != []
    && run.warningDetails.Array? && |run.warningDetails.items| == |WarningList(run).value|
  }

  /** The first rule that fails: each stands for one thing wrong where all before is right. */
  predicate GateMeans(run: SyncRun, gate: WarningGate) {
    match gate
    case Eligible => BenignWarnings(run)
    case Unclassified => run.structuredWarnings.None? || !run.structuredWarnings.value.Object?
    case MalformedShape => run.structuredWarnings.Some? && run.structuredWarnings.value.Object? && !WellShaped(run)
    case Truncated =>
      WellShaped(run) && Field(run.structuredWarnings.value.fields, "truncatedCount") != Some(Number(0.0))
    case CountMismatch =>
      && WellShaped(run) && Field(run.structuredWarnings.value.fields, "truncatedCount") == Some(Number(0.0))
      && run.warningCount != |WarningList(run).value|
    case NoWarnings => Complete(run) && WarningList(run).value == []
    case LegacyMisaligned =>
      && Complete(run) && WarningList(run).value != []
      && (!run.warningDetails.Array? || |run.warningDetails.items| != |WarningList(run).value|)
    case WrongCodeAt(index) => FirstBad(run, index) && !HasCode(WarningList(run).value[index])
    case WrongDetailAt(index) => FirstBad(run, index) && HasCode(WarningList(run).value[index])
  }

  /** The first warning that is not a benign one aligned with its legacy detail. */
  predicate FirstBad(run: SyncRun, index: nat) {
    && Aligned(run) && index < |WarningList(run).value|
    && var ws, ds := WarningList(run).value, run.warningDetails.items;
    && (forall j :: 0 <= j < index ==> BenignEntry(ws[j], ds[j])) && !BenignEntry(ws[index], ds[index])
  }

  method VerifyStructuredWarnings(run: SyncRun) returns (gate: WarningGate)
    ensures GateMeans(run, gate) && (gate.Eligible? <==> BenignWarnings(run))
  {
    if run.structuredWarnings.None? || !run.structuredWarnings.value.Object? {
      return Unclassified;
    }
    var shape := run.structuredWarnings.value.fields;
    var warningsField := Field(shape, "warnings");
    var truncatedField := Field(shape, "truncatedCount");
    if warningsField.None? || !warningsField.value.Array? || truncatedField.None? || !truncatedField.value.Number? {
      return MalformedShape;
    }
    var warnings := warningsField.value.items;
    if truncatedField.value.value != 0.0 {
      return Truncated;
    }
    if run.warningCount != |warnings| {
      return CountMismatch;
    }
    if |warnings| == 0 {
      return NoWarnings;
    }
    if !run.warningDetails.Array? || |run.warningDetails.items| != |warnings| {
      return LegacyMisaligned;
    }
    var legacy := run.warningDetails.items;
    var i := 0;
    while i < |warnings|
      invariant 0 <= i <= |warnings|
      invariant forall j :: 0 <= j < i ==> BenignEntry(warnings[j], legacy[j])
    {
      var entry := warnings[i];
      if !entry.Object? || Field(entry.fields, "code") != Some(String(RECOVERY_ELIGIBLE_WARNING_CODE)) {
        return WrongCodeAt(i);
      }
      if !StrictEquals(Field(entry.fields, "detail"), legacy[i]) {
        return WrongDetailAt(i);
      }
      i := i + 1;
    }
    return Eligible;
  }

  /** The verifier of ordinary windows names exactly the failures a run has. */
  method VerifyWindowTerminalState(run: SyncRun, want: Expectation) returns (reasons: seq<TerminalReason>)
    ensures reasons == [] <==> StrictlyClean(run, want)
    ensures forall reason :: reason in reasons <==>
      || IdentityFault(run, want, reason)
      || (reason == NonZeroWarningCount && run.warningCount != 0)
      || (reason == NonEmptyWarningDetails && !EmptyList(run.warningDetails))
  {
    hide IdentityFault, RunIdentityReasons;
    reasons := [];
    if run.warningCount != 0 {
      reasons := reasons + [NonZeroWarningCount];
    }
    if !run.warningDetails.Array? || |run.warningDetails.items| != 0 {
      reasons := reasons + [NonEmptyWarningDetails];
    }
    reasons := RunIdentityReasons(run, want) + reasons;
    forall reason ensures reason in RunIdentityReasons(run, want) <==> IdentityFault(run, want, reason) {
      IdentityReasonsExact(run, want, reason);
    }
  }

  /** So does the verifier of the recovery window. */
  method VerifyRecoveryWindowTerminalState(run: SyncRun, want: Expectation) returns (reasons: seq<TerminalReason>)
    ensures reasons == [] <==> RecoveryAcceptable(run, want)
    ensures forall reason :: reason in reasons <==>
      || IdentityFault(run, want, reason)
      || (reason == WarningsNotEligible && run.warningCount != 0 && !BenignWarnings(run))
      || (reason == NonEmptyWarningDetails && run.warningCount == 0 && !EmptyList(run.warningDetails))
      || (reason == StructuredNotKnownEmpty && run.warningCount == 0 && !KnownEmpty(run.structuredWarnings))
  {
    hide IdentityFault, RunIdentityReasons, GateMeans;
    forall reason ensures reason in RunIdentityReasons(run, want) <==> IdentityFault(run, want, reason) {
      IdentityReasonsExact(run, want, reason);
    }
    reasons := RunIdentityReasons(run, want);
    if run.warningCount != 0 {
      var gate := VerifyStructuredWarnings(run);
      if gate != Eligible {
        reasons := reasons + [WarningsNotEligible];
      }
    } else {
      if !run.warningDetails.Array? || |run.warningDetails.items| != 0 {
        reasons := reasons + [NonEmptyWarningDetails];
      }
      if !KnownEmpty(run.structuredWarnings) {
        reasons := reasons + [StructuredNotKnownEmpty];
      }
    }
  }

  // ----- how the two acceptance sets relate

  /** A warning-free run the recovery verifier accepts is strictly clean. */
  lemma ZeroWarningAcceptanceIsStrict(run: SyncRun, want: Expectation)
    requires RecoveryAcceptable(run, want) && run.warningCount == 0
    ensures StrictlyClean(run, want)
  {
  }

  /** On runs whose classification is known, recovery accepts exactly the strictly
      clean runs together with the benign ones, and the two never overlap. */
  lemma RecoveryWidensStrictByBenignRuns(run: SyncRun, want: Expectation)
    ensures RecoveryAcceptable(run, want) <==>
              || (StrictlyClean(run, want) && KnownEmpty(run.structuredWarnings))
              || (TerminalFields(run, want) && BenignWarnings(run))
    ensures !(StrictlyClean(run, want) && BenignWarnings(run))
  {
  }

  /** No run that may authorise a recovery is acceptable to the strict verifier,
      whatever request it is held against. */
  lemma EligibleSourceIsNeverStrictlyClean(run: SyncRun, id: string, want: Expectation, other: Expectation)
    requires EligibleSource(Some(run), id, want)
    ensures !StrictlyClean(run, other)
  {
  }

  /** Benign details are primitive JSON values: an object or list detail is never
      identical to its legacy counterpart, however equal the two print. */
  lemma BenignDetailsArePrimitive(run: SyncRun, i: nat)
    requires BenignWarnings(run) && i < |run.warningDetails.items|
    ensures run.warningDetails.items[i].Primitive()
  {
    var warnings := Field(run.structuredWarnings.value.fields, "warnings").value.items;
    assert BenignEntry(warnings[i], run.warningDetails.items[i]);
  }
}
