/**
 * Go's `error` values as the core builds them.
 *
 * An error either comes from a collaborator outside the model (a processor hook,
 * the database, the document cursor) or is an earlier error wrapped with a
 * prefix by `fmt.Errorf("...: %w", err)`. Each kind of wrapping the core does
 * has its own constructor, so that the tag, the worker id or the pipeline name
 * stays visible in the model.
 */
module Errors {

  datatype Option<+T> = None | Some(value: T)

  datatype Error =
    | External(message: string)                  // produced outside the core
    | NoPipelines                                 // fmt.Errorf("no pipelines registered")
    | Stage(tag: string, cause: Error)            // fmt.Errorf("<tag>: %w", cause)
    | WorkerError(id: nat, cause: Error)          // fmt.Errorf("worker %d: %w", id, cause)
    | PipelineError(name: string, cause: Error)   // fmt.Errorf("pipeline %s failed: %w", name, cause)

  /** A returned `error`: `Pass` is nil, `Fail(e)` is the non-nil error `e`. */
  datatype Outcome = Pass | Fail(error: Error)

  /**
   * How a blocking call stands at the end of a modelled schedule: still
   * `Running` (it has not returned yet), or `Stopped` with what it returned.
   */
  datatype Exit = Running | Stopped(result: Outcome)
}
