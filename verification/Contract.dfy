/** The result type every provider returns (llm/contract/contract.go). */
module Contract {
  datatype AnalysisResult = AnalysisResult(
    isImportant: bool, priority: string, reason: string, hasAction: bool, actionRequired: string,
    sentiment: string, sentimentScore: real, topics: seq<string>, confidence: real)
}
