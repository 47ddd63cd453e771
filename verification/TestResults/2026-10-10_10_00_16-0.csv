TestResult.DisplayName,TestResult.Outcome,TestResult.Duration,TestResult.ResourceCount,RandomSeed
Seqs.Filter (well-formedness),Passed,00:00:00.7332418,1739321,5
Seqs.FilterIsSubsequence (correctness),Passed,00:00:00.1586058,80621,5
