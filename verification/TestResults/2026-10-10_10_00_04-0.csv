TestResult.DisplayName,TestResult.Outcome,TestResult.Duration,TestResult.ResourceCount,RandomSeed
Seqs.Filter (well-formedness),Passed,00:00:00.7409343,1209552,2
Seqs.FilterIsSubsequence (correctness),Passed,00:00:00.2215720,97592,2
