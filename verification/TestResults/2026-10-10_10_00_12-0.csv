TestResult.DisplayName,TestResult.Outcome,TestResult.Duration,TestResult.ResourceCount,RandomSeed
Seqs.Filter (well-formedness),Passed,00:00:00.7391910,1530601,4
Seqs.FilterIsSubsequence (correctness),Passed,00:00:00.1990770,80432,4
