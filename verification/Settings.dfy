// Scheduler settings as validation leaves them, and shared small types.

module Settings {

  datatype Option<T> = None | Some(value: T)

  function Min(a: int, b: int): int { if a <= b then a else b }

  function Max(a: int, b: int): int { if a <= b then b else a }

  datatype Config = Config(adaptive: bool, minimum: int, maximum: int, initial: int,
                           readLimit: int, remoteLimit: int, remoteTargetLimit: int,
                           projectLimits: map<string, int>, relaxed: bool)

  /** What `validate_scheduler` guarantees. */
  predicate ValidConfig(c: Config) {
    && 1 <= c.minimum <= c.initial <= c.maximum
    && 1 <= c.readLimit && 1 <= c.remoteLimit && 1 <= c.remoteTargetLimit
    && forall p :: p in c.projectLimits ==> 1 <= c.projectLimits[p]
  }
}
