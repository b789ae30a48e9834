/** The words a report template's placeholder keys are built from. */
module Placeholders {
  const Value: string := "val"
  const Picture: string := "pic"
  const Curve: string := "crv"
  const CompareToTarget: string := "cmp"
  const SquaredArea: string := "asq"
  const SumOfSquares: string := "ssq"
  const MaxDeviation: string := "dev"
  const Target: string := "target"
  const ComparisonCurves: string := "curves"
  const Cores: string := "cores"
  const Memory: string := "memory"
  const Status: string := "status"
}
