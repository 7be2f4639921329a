/**
 * The per-run settings record (`Settings` in app/config.py) and the
 * validation that turns the supplied values into one: the two required
 * fields must be present, every other field falls back to its default.
 */
module Config {
  import opened Results

  /** Immutable per-run configuration. */
  datatype Settings = Settings(
    sourceRepository: string,
    destinationRepositories: seq<string>,
    copyContinueOnSkipped: bool,
    copyMaxVersionAgeDays: int,
    copyAllAttachments: bool,
    copyAllTagsExcluded: bool,
    pollOperation: bool,
    dryRun: bool)

  /** The values supplied for a run; `None` is a field left unset. */
  datatype SettingsInput = SettingsInput(
    sourceRepository: Option<string>,
    destinationRepositories: Option<seq<string>>,
    copyContinueOnSkipped: Option<bool>,
    copyMaxVersionAgeDays: Option<int>,
    copyAllAttachments: Option<bool>,
    copyAllTagsExcluded: Option<bool>,
    pollOperation: Option<bool>,
    dryRun: Option<bool>)

  const DefaultContinueOnSkipped := false
  const DefaultMaxVersionAgeDays := 0
  const DefaultAllAttachments := false
  const DefaultAllTagsExcluded := false
  const DefaultPollOperation := false
  const DefaultDryRun := false

  /** Input that sets only the two required fields. */
  function RequiredOnly(source: string, destinations: seq<string>): SettingsInput {
    SettingsInput(Some(source), Some(destinations), None, None, None, None, None, None)
  }

  /**
   * Validation of the supplied values. A missing required field is an
   * error naming every missing field, in declaration order.
   */
  function Build(input: SettingsInput): (r: Result<Settings, seq<string>>)
    ensures r.Success? <==> input.sourceRepository.Some? && input.destinationRepositories.Some?
    ensures r.Failure? ==>
      && 0 < |r.error| <= 2
      && ("source_repository" in r.error <==> input.sourceRepository.None?)
      && ("destination_repositories" in r.error <==> input.destinationRepositories.None?)
    ensures r.Success? ==>
      && r.value.sourceRepository == input.sourceRepository.value
      && r.value.destinationRepositories == input.destinationRepositories.value
  {
    var missing :=
      (if input.sourceRepository.None? then ["source_repository"] else [])
      + (if input.destinationRepositories.None? then ["destination_repositories"] else []);
    if missing != [] then Failure(missing)
    else Success(Settings(
      input.sourceRepository.value,
      input.destinationRepositories.value,
      if input.copyContinueOnSkipped.Some? then input.copyContinueOnSkipped.value else DefaultContinueOnSkipped,
      if input.copyMaxVersionAgeDays.Some? then input.copyMaxVersionAgeDays.value else DefaultMaxVersionAgeDays,
      if input.copyAllAttachments.Some? then input.copyAllAttachments.value else DefaultAllAttachments,
      if input.copyAllTagsExcluded.Some? then input.copyAllTagsExcluded.value else DefaultAllTagsExcluded,
      if input.pollOperation.Some? then input.pollOperation.value else DefaultPollOperation,
      if input.dryRun.Some? then input.dryRun.value else DefaultDryRun))
  }

  /** Settings built from the required fields alone carry all the defaults. */
  lemma RequiredOnlyUsesDefaults(source: string, destinations: seq<string>)
    ensures Build(RequiredOnly(source, destinations))
      == Success(Settings(source, destinations, false, 0, false, false, false, false))
  {
  }

  /**
   * Each optional field is resolved on its own: a supplied value wins, and
   * an unset field takes its own default whatever the other fields hold.
   */
  lemma SuppliedValuesOverrideDefaults(input: SettingsInput)
    requires input.sourceRepository.Some? && input.destinationRepositories.Some?
    ensures var s := Build(input).value;
      && (input.copyContinueOnSkipped.None? ==> s.copyContinueOnSkipped == false)
      && (input.copyMaxVersionAgeDays.None? ==> s.copyMaxVersionAgeDays == 0)
      && (input.copyAllAttachments.None? ==> s.copyAllAttachments == false)
      && (input.copyAllTagsExcluded.None? ==> s.copyAllTagsExcluded == false)
      && (input.pollOperation.None? ==> s.pollOperation == false)
      && (input.dryRun.None? ==> s.dryRun == false)
    ensures var s := Build(input).value;
      && (input.copyContinueOnSkipped.Some? ==> s.copyContinueOnSkipped == input.copyContinueOnSkipped.value)
      && (input.copyMaxVersionAgeDays.Some? ==> s.copyMaxVersionAgeDays == input.copyMaxVersionAgeDays.value)
      && (input.copyAllAttachments.Some? ==> s.copyAllAttachments == input.copyAllAttachments.value)
      && (input.copyAllTagsExcluded.Some? ==> s.copyAllTagsExcluded == input.copyAllTagsExcluded.value)
      && (input.pollOperation.Some? ==> s.pollOperation == input.pollOperation.value)
      && (input.dryRun.Some? ==> s.dryRun == input.dryRun.value)
  {
  }
}
