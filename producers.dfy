/**
 * The work that actually produces image bytes: resizing a local file,
 * downloading an image, or extracting a frame from a video file. Each is an
 * external operation that completes or raises; the model only records what
 * it was asked to do.
 */
module Producers {
  import opened Entities
  import opened Wrappers

  /** One request to a producer, with the arguments the source passes it. */
  datatype ProducerJob =
    | ProcessImage(inputPath: string, outputPath: string, size: ImageSize, keepOriginal: Option<bool>)
    | DownloadImage(url: string, basePath: string, filename: string, size: ImageSize)
    | GenerateImageFromVideoFile(inputPath: string, basePath: string, filename: string, size: ImageSize)

  /** How a producer invocation ended. */
  datatype Outcome = Completed | Raised(reason: string)

  /**
   * The producers, seen from outside. `log` lists every invocation so far;
   * `respond(job, n)` is how the `n`-th invocation (counting from 0) ends
   * when it is asked to do `job`, so failures may depend on the job and on
   * when it runs.
   */
  class Producer {
    var log: seq<ProducerJob>
    const respond: (ProducerJob, nat) -> Outcome

    constructor (respond: (ProducerJob, nat) -> Outcome)
      ensures log == [] && this.respond == respond
    {
      this.respond := respond;
      log := [];
    }

    /** Runs `job` once and reports how it ended. */
    method Run(job: ProducerJob) returns (outcome: Outcome)
      modifies this
      ensures log == old(log) + [job]
      ensures outcome == respond(job, |old(log)|)
    {
      outcome := respond(job, |log|);
      log := log + [job];
    }
  }
}
