/** Frozen request limits and the target criteria a loadcase target may carry. */
module Parameters {

  // Page sizes of the list requests.
  const MaxTargetsPerLoadcase: nat := 250
  const MaxSimulationsPerLoadcase: nat := 250
  const MaxTasksPerSimulation: nat := 10
  const MaxValuesPerSimulation: nat := 250
  const MaxPicturesPerSimulation: nat := 100
  const MaxCurvesPerSimulation: nat := 100
  const Default: nat := 100

  // Criteria of a target value, as the server spells them.
  const Eq: string := "eq"
  const Lt: string := "lt"
  const Le: string := "lte"
  const Gt: string := "gt"
  const Ge: string := "gte"
  const Tolerance: string := "tolerance"
  const Interval: string := "interval"
}
