/** What a user asks for: the input record of Create, and the records Clone and RollbackJob build. */
module Requests {
  import opened Types
  import opened Sql

  datatype CreateInput = CreateInput(
    owner: string, name: string, launcherName: string, launcherEmail: string,
    task: TaskType, config: Option<string>, insts: seq<nat>,
    related: Option<nat>, scope: Option<string>)

  const NO_OVERRIDES := CreateInput("", "", "", "", UnknownTask(""), None, [], None, None)

  function Checksum(config: Option<string>): Option<Digest> {
    if config.Some? then Some(Sha256(config.value)) else None
  }

  /** A task that needs a configuration has one that is not empty and parses. */
  predicate ConfigFits(yaml: string -> bool, task: TaskType, config: Option<string>) {
    task.RequiresConfig() ==> config.Some? && config.value != "" && yaml(config.value)
  }

  /** Create's checks before its first query. */
  predicate Acceptable(yaml: string -> bool, input: CreateInput) {
    input.insts != [] && ConfigFits(yaml, input.task, input.config)
  }

  /** The event row Create asks for. */
  function InfoOf(input: CreateInput): EventInfo {
    EventInfo(input.owner, input.name, input.launcherName, input.launcherEmail, input.task, input.config,
              Checksum(input.config), input.related, input.scope)
  }

  function OrElse(s: string, otherwise: string): string { if s != "" then s else otherwise }

  /** Clone's record: the source event's, under a new name, with the non-empty overrides. `listing` is the
      order in which the database returns the event's targets. */
  function CloneInput(src: Event, listing: seq<nat>, owner: string, over: CreateInput): CreateInput {
    CreateInput(
      owner, OrElse(over.name, src.info.name + " (clone)"),
      OrElse(over.launcherName, src.info.launcherName), OrElse(over.launcherEmail, src.info.launcherEmail),
      src.info.task, if over.config.Some? then over.config else src.info.config,
      if over.insts != [] then over.insts else listing, None, None)
  }

  /** RollbackJob's record: one rollback of the job's instance, tied to the event it undoes. */
  function RollbackInput(ev: nat, src: Event, inst: nat, user: string, email: string): CreateInput {
    CreateInput(user, "Rollback " + src.info.name, email, email, RollbackConfig, None, [inst],
                Some(ev), Some("instance"))
  }

  /** A listing of a set of rows: each once, in some order. */
  ghost predicate Lists(listing: seq<nat>, rows: set<nat>) {
    Distinct(listing) && Elements(listing) == rows
  }
}
