TestResult.DisplayName,TestResult.Outcome,TestResult.Duration,TestResult.ResourceCount,RandomSeed
TmpProbe.Probe (correctness),Passed,00:00:00.1278902,124895,0
TmpProbe.Probe (well-formedness),Passed,00:00:00.1253887,71269,0
