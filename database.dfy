// The in-memory store: two lists that the accessors append to, the next
// identifier each list would hand out, and a reset that empties both.
// `Theme` and `Question` are defined elsewhere in the application and
// are kept as type parameters here.

module InMemoryDatabase {

  /** The dataclass `Database(themes=[], questions=[])`. */
  class Database<Theme, Question> {
    var themes: seq<Theme>
    var questions: seq<Question>

    /** The generated `__init__` with both fields given. */
    constructor (themes: seq<Theme>, questions: seq<Question>)
      ensures this.themes == themes && this.questions == questions
    {
      this.themes := themes;
      this.questions := questions;
    }

    /** `Database()`: both lists start empty (`field(default_factory=list)`). */
    constructor Empty()
      ensures themes == [] && questions == []
      ensures NextThemeId() == 1 && NextQuestionId() == 1
    {
      themes := [];
      questions := [];
    }

    /** The identifier the next theme would get: one past the themes stored, so never below 1. */
    function NextThemeId(): (r: int)
      reads this`themes
      ensures r >= 1
      ensures r - 1 == |themes|
    {
      |themes| + 1
    }

    /** The identifier the next question would get: one past the questions stored, so never below 1. */
    function NextQuestionId(): (r: int)
      reads this`questions
      ensures r >= 1
      ensures r - 1 == |questions|
    {
      |questions| + 1
    }

    /**
     * Empties both lists.  The new state does not depend on the old one,
     * so a second call leaves the same state as the first.
     */
    method Clear()
      modifies this
      ensures themes == [] && questions == []
      ensures NextThemeId() == 1 && NextQuestionId() == 1
    {
      themes := [];
      questions := [];
    }
  }
}
