/** The constants of the configuration module (config.py) that the modelled code reads. */
module Config {

  /** Retrieval scores at or above this are confident (config.py:29). */
  const RetrievalConfidenceThreshold: real := 0.75

  /** Number of chunks `search_policies` retrieves (config.py:32). */
  const TopKChunks: nat := 3

  /** Longest accepted user input, in characters (config.py:50). */
  const MaxInputLength: nat := 2000

  /** Phrases whose case-insensitive occurrence marks a prompt injection (config.py:53-64). All are lower case. */
  const InjectionPatterns: seq<string> := [
    "ignore previous instructions",
    "ignore all instructions",
    "disregard your instructions",
    "forget your rules",
    "you are now",
    "act as if",
    "pretend you are",
    "new instructions:",
    "system prompt:",
    "override:"
  ]

  /** Model calls the agent makes at most per request (agent.py:129 and :217). */
  const MaxIterations: nat := 10
}
