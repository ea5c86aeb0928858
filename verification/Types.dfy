/** Values shared by every part of the model: status and task enumerations, and the
    three ways a call to Postgres or RabbitMQ can end. */
module Types {
  datatype Option<+T> = None | Some(value: T)

  /** How a call over the network ends for its caller.
      `Confirmed`: it took effect and the caller saw success.
      `Refused`: it had no effect and the caller saw an error.
      `Lost`: it took effect, but the caller saw an error all the same. */
  datatype Reply = Confirmed | Refused | Lost {
    predicate Effective() { !Refused? }
  }

  datatype TaskType =
    | DeployConfig | ValidateConfig | RestartCollector | CheckStatus | FetchLogs
    | RollbackConfig | StopCollector | SshTest | InstallAgent
    | UnknownTask(name: string)
  {
    predicate RequiresConfig() { DeployConfig? || ValidateConfig? }
  }

  datatype EventStatus = EventQueued | EventRunning | EventCompleted | EventPartial | EventFailed {
    predicate Terminal() { EventCompleted? || EventPartial? || EventFailed? }
  }

  datatype JobStatus = JobQueued | JobRunning | JobVerified | JobFailed {
    predicate Pending() { JobQueued? || JobRunning? }
  }

  /** SHA-256 kept symbolic: equal digests have equal contents. */
  datatype Digest = Sha256(content: string)

  ghost predicate Distinct<T>(s: seq<T>) {
    forall i, j | 0 <= i < j < |s| :: s[i] != s[j]
  }

  function Elements<T>(s: seq<T>): set<T> {
    set x | x in s
  }

  lemma {:induction false} DistinctSize<T>(s: seq<T>)
    requires Distinct(s)
    ensures |Elements(s)| == |s|
  {
    if s != [] {
      var t, last := s[..|s| - 1], s[|s| - 1];
      DistinctSize(t);
      assert s == t + [last];
      assert last !in Elements(t);
      assert Elements(s) == Elements(t) + {last};
    }
  }
}
