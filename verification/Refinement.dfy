/** The refinement the two pipelines are written for: over the kernel or over plain boxed slices, the
    workload comes to the same. */
module Refinement {
  import opened Wrappers
  import opened Ring
  import opened Workload
  import opened RingState
  import Baseline
  import Pipeline
  import StageTurns

  /** Both pipelines on one configuration. They complete together, with the same results in the same
      order and the same statistics, or stall together after the same number of turns; and they stall
      exactly when there is work and no region. */
  method RunBoth(c: Config, clocks: bool) returns (kernel: Result<StageTurns.Report, PipelineError>, plain: Result<Baseline.Report, PipelineError>)
    requires InBounds(c)
    ensures kernel.Ok? <==> plain.Ok?
    ensures kernel.Ok? ==> kernel.value.results == plain.value.results && kernel.value.stats == plain.value.stats
    ensures kernel.Ok? ==> kernel.value.results == ReferenceResults(c, c.batches)
    ensures kernel.Err? ==> kernel.error == plain.error == Stalled(c.stages + 4)
    ensures kernel.Err? <==> c.pool == 0 && c.batches > 0
  {
    kernel := Pipeline.RunKernelPipeline(c);
    plain := Baseline.RunBaseline(c, clocks);
  }
}
