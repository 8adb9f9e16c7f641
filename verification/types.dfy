/** The records of the quiz: questions, score entries and user profiles
    (types.ts). */
module Types {
  import opened Wrappers

  /** Question tiers; the stored strings are 'fácil', 'médio' and 'difícil'. */
  datatype Difficulty = Facil | Medio | Dificil

  /** The closed set of quiz categories. */
  datatype Theme = Mundial | Africano | Angolano | Europeu | Copa | Jogadores | Clubes

  datatype Question = Question(
    id: string,
    text: string,
    options: seq<string>,
    correctAnswer: string,
    theme: Theme,
    subtheme: string,
    difficulty: Difficulty,
    approved: bool,
    suggestedBy: Option<string>)

  datatype Role = User | Admin

  /** One finished round in a user's history; `date` is an opaque timestamp. */
  datatype ScoreEntry = ScoreEntry(theme: Theme, points: int, date: string)

  datatype UserProfile = UserProfile(
    uid: string,
    email: string,
    displayName: string,
    role: Role,
    scores: seq<ScoreEntry>)
}
