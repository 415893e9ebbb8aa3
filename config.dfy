/** The tunable constants of the chatbot (src/config/settings.py). Thresholds are
    exact rationals: the source compares ratios of small integers against them. */
module Config {

  const MaxContextSize: int := 6000

  const MaxMemoryEntries: nat := 100
  const SimilarityThreshold: real := 0.7
  const EasyQuestionThreshold: real := 0.6

  const MaxGithubLinks: nat := 3

  /** The spellings under which the primary project, LinkUp, is recognised. */
  const LinkupNames: seq<string> := ["linkup", "link-up", "link up"]

  /** The technology keywords a question is scanned for, in priority order. */
  const KeywordTechPatterns: seq<string> := [
    "firebase", "react native", "real-time", "realtime", "chat", "auth",
    "next.js", "nextjs", "mongodb", "socket", "typescript", "tailwind",
    "aws", "node", "express", "gemini", "ai", "nodemailer", "shadcn"
  ]
}
