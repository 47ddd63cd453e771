TestResult.DisplayName,TestResult.Outcome,TestResult.Duration,TestResult.ResourceCount,RandomSeed
Seqs.Filter (well-formedness),Passed,00:00:00.9483522,1668495,1
Seqs.FilterIsSubsequence (correctness),Passed,00:00:00.3206993,97421,1
