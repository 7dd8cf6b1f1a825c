/** Stage checkpoints (qc/batch/models.py, qc/batch/store.py): what one stage row says and how it changes. */
module Stages {
  import opened Common

  /** The four stages a file passes through and leaves artifacts for. */
  datatype Stage = Transcode | Asr | Emotion | Quality

  datatype StageStatus = Pending | Running | Done | Failed

  datatype StageError = StageError(code: string, message: string, retryable: bool)

  /** `Digest` stands for the SHA-256 text of the stored bytes. */
  datatype Artifact<D> = Artifact(digest: D, version: string)

  datatype Cell<D> = Cell(status: StageStatus, attempts: nat, artifact: Option<Artifact<D>>, error: Option<StageError>)

  function Begun<D>(previous: Option<Cell<D>>): Cell<D> {
    Cell(Running, (if previous.Some? then previous.value.attempts else 0) + 1, None, None)
  }

  function Completed<D>(cell: Cell<D>, artifact: Artifact<D>): Cell<D> {
    cell.(status := Done, artifact := Some(artifact), error := None)
  }

  function FailedWith<D>(cell: Cell<D>, error: StageError): Cell<D> {
    cell.(status := Failed, error := Some(error))
  }

  /** The attempt count survives invalidation. */
  function Invalidated<D>(cell: Cell<D>): Cell<D> {
    cell.(status := Pending, artifact := None, error := None)
  }

  /** `_DOWNSTREAM` of qc/batch/checkpoints.py. */
  function Downstream(stage: Stage): seq<Stage> {
    match stage
    case Transcode => [Asr, Emotion, Quality]
    case Asr => [Quality]
    case Emotion => []
    case Quality => []
  }
}
