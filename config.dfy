/** The process configuration as an explicit record. Similarity scores and
    thresholds are integers on a hundredths scale (0.85 is written 85). */
module Config {
  import opened Common

  datatype Settings = Settings(
    openaiApiKey: Option<string>,
    googleApiKey: Option<string>,
    defaultLlm: string,
    openaiModel: string,
    geminiModel: string,
    semanticSimilarityThreshold: int,
    ragSimilarityThreshold: int,
    cacheTtl: int,
    enableChunking: bool,
    chunkSize: int,
    chunkOverlap: int,
    chunkingStrategy: string)

  /** The defaults every setting has when the environment does not set it. */
  const Defaults := Settings(
    openaiApiKey := None,
    googleApiKey := None,
    defaultLlm := "openai",
    openaiModel := "gpt-3.5-turbo",
    geminiModel := "gemini-pro",
    semanticSimilarityThreshold := 85,
    ragSimilarityThreshold := 75,
    cacheTtl := 3600,
    enableChunking := true,
    chunkSize := 512,
    chunkOverlap := 50,
    chunkingStrategy := "recursive")
}
