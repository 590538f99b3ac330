/**
 * The constants of the configuration (config.py) the pipeline reads:
 * frame size, frame rate, the length limit, directories and the
 * genre prompt table.
 */
module Settings {

  const VideoWidth: nat := 1080
  const VideoHeight: nat := 1920
  const VideoFps: nat := 30

  /** Longest video, in seconds. */
  const MaxDuration: nat := 60

  const OutputDir: string := "output"
  const TempDir: string := "temp"
  const CohereModel: string := "command"

  /** Configured background clips; the first is the one the background manager uses. */
  const BackgroundVideos: seq<string> := ["path/to/your/background/video.mp4"]

  /** The genres, in the table's order. */
  const Genres: seq<string> := ["aita", "confessions", "horror", "malicious_compliance", "inspiring"]

  /** Story prompts per genre. */
  const GenrePrompts: map<string, seq<string>> := map[
    "aita" := [
      "Write a 60-second original story about " +
        "someone questioning if they were wrong " +
        "in a situation. Make it relatable and " +
        "family-friendly, suitable for all " +
        "audiences.",
      "Create a short original story about a " +
        "moral dilemma where the person wonders " +
        "if they made the right choice. Keep it " +
        "clean and thought-provoking.",
      "Write an original story about a conflict " +
        "where the person seeks validation about " +
        "their actions. Make it engaging without " +
        "being controversial.",
      "Generate an original story about someone " +
        "questioning their behavior in a social " +
        "situation. Keep it wholesome and " +
        "relatable.",
      "Create an original story about a person " +
        "wondering if they overreacted to " +
        "something. Make it entertaining and " +
        "suitable for all ages."
    ],
    "confessions" := [
      "Write a 60-second original story about " +
        "someone sharing a secret or hidden " +
        "truth. Make it light-hearted and " +
        "family-friendly.",
      "Create a short original story about " +
        "someone revealing something they've kept " +
        "hidden. Keep it positive and uplifting.",
      "Write an original story about someone " +
        "confessing to a small mistake or " +
        "misunderstanding. Make it relatable and " +
        "humorous.",
      "Generate an original story about someone " +
        "sharing a surprising revelation. Keep it " +
        "clean and entertaining.",
      "Create an original story about someone " +
        "admitting to an embarrassing but " +
        "harmless situation. Make it funny and " +
        "wholesome."
    ],
    "horror" := [
      "Write a 60-second original story about a " +
        "spooky but not terrifying experience. " +
        "Make it family-friendly and more mystery " +
        "than horror.",
      "Create a short original story about an " +
        "unexplained event that turns out to have " +
        "a logical explanation. Keep it suitable " +
        "for all audiences.",
      "Write an original story about someone's " +
        "imagination playing tricks on them. Make " +
        "it light-hearted and not scary.",
      "Generate an original story about a " +
        "mysterious situation that gets resolved " +
        "positively. Keep it engaging but not " +
        "frightening.",
      "Create an original story about a " +
        "'haunted' place that turns out to be " +
        "something else entirely. Make it fun and " +
        "family-safe."
    ],
    "malicious_compliance" := [
      "Write a 60-second original story about " +
        "someone following rules exactly as " +
        "written with unexpected results. Make it " +
        "clever and family-friendly.",
      "Create a short original story about " +
        "someone technically following " +
        "instructions but not as intended. Keep " +
        "it humorous and clean.",
      "Write an original story about someone " +
        "using the letter of the law against " +
        "itself. Make it smart and entertaining.",
      "Generate an original story about someone " +
        "following directions literally with " +
        "funny consequences. Keep it " +
        "light-hearted and positive.",
      "Create an original story about someone " +
        "using rules creatively to solve a " +
        "problem. Make it clever and inspiring."
    ],
    "inspiring" := [
      "Write a 60-second original story about a " +
        "relatable everyday situation with a " +
        "surprising twist. Make it engaging and " +
        "family-friendly.",
      "Create a short original story about a " +
        "workplace misunderstanding that gets " +
        "resolved in an unexpected way. Keep it " +
        "clean and entertaining.",
      "Write an original story about a " +
        "friendship challenge that teaches a " +
        "valuable lesson. Make it inspiring and " +
        "suitable for all audiences.",
      "Generate an original story about a " +
        "family gathering that takes an " +
        "unexpected turn. Keep it wholesome and " +
        "relatable.",
      "Create a short original story about a " +
        "neighborly dispute that gets resolved " +
        "through kindness. Make it heartwarming " +
        "and positive."
    ]
  ]
}
