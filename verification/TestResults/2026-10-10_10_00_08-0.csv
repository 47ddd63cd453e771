TestResult.DisplayName,TestResult.Outcome,TestResult.Duration,TestResult.ResourceCount,RandomSeed
Seqs.Filter (well-formedness),Passed,00:00:00.5567011,1205639,3
Seqs.FilterIsSubsequence (correctness),Passed,00:00:00.1925983,104249,3
